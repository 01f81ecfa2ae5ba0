/** The phrase-based boundary scorer `LanguageModel::Evaluate`: when a
    hypothesis is extended by one phrase, only the n-grams that straddle the
    phrase boundary are scored (phrase-internal scores come with the
    translation option), plus the end-of-sentence n-gram once the whole
    source is covered. */
module PhraseScoring {
  import opened LMTypes
  import opened ContextWindows

  /** What `Evaluate` reads of a hypothesis: its whole target side so far,
      the target range of the phrase just added and whether the source is
      fully covered. */
  datatype PhraseHypothesis = PhraseHypothesis(
    words: seq<Word>,
    startPos: nat,
    currEndPos: nat,
    currTargetLength: nat,
    sourceCompleted: bool)

  /** A non-empty current phrase lies inside the target side. */
  ghost predicate WellFormed(h: PhraseHypothesis)
  {
    h.currTargetLength > 0 ==> h.startPos <= h.currEndPos < |h.words|
  }

  /** The n positions `end - n + 1 .. end`, with `<s>` for negative ones. */
  ghost function PaddedWindow(words: seq<Word>, end: nat, n: nat): seq<Word>
    requires end < |words|
  {
    seq(n, k requires 0 <= k < n => if end - n + 1 + k >= 0 then words[end - n + 1 + k] else SentenceStart)
  }

  /** The last position scored with the backend's state: `min(startPos + N - 2, currEndPos)`. */
  ghost function LastScoredPos(h: PhraseHypothesis, n: nat): (r: nat)
    requires n >= 2
    ensures h.startPos <= h.currEndPos ==>
      h.startPos <= r <= h.currEndPos && r - h.startPos == Min(n - 2, h.currEndPos - h.startPos)
    ensures r < h.currEndPos ==> r == h.startPos + n - 2
  {
    Min(h.startPos + n - 2, h.currEndPos)
  }

  /** The score and state after the first n-gram (scored with the
      predecessor's state when there is one, else forgetting it) and the
      windows ending at positions `startPos + 1 .. c`, each scored with the
      state the previous one left. */
  ghost function ScoreThrough<S>(b: Backend<S>, h: PhraseHypothesis, n: nat, given: bool, s0: S, c: nat): Scored<S>
    requires h.startPos <= c < |h.words|
    decreases c - h.startPos
  {
    if c == h.startPos then
      if given then b.valueGivenState(PaddedWindow(h.words, c, n), s0)
      else b.valueForgotState(PaddedWindow(h.words, c, n), s0)
    else
      var r := ScoreThrough(b, h, n, given, s0, c - 1);
      var g := b.valueGivenState(PaddedWindow(h.words, c, n), r.state);
      Scored(r.score + g.score, g.state)
  }

  /** The end-of-sentence n-gram: the last N-1 hypothesis words (padded
      with `<s>`) followed by `</s>`. */
  ghost function EndOfSentenceWindow(words: seq<Word>, n: nat): seq<Word>
    requires |words| > 0 && n >= 1
  {
    PaddedWindow(words, |words| - 1, n)[1..] + [SentenceEnd]
  }

  /** All the scoring `Evaluate` does on a non-empty phrase: the boundary
      n-grams, then the end-of-sentence n-gram if the source is complete. */
  ghost function BoundaryScore<S>(b: Backend<S>, h: PhraseHypothesis, n: nat, given: bool, s0: S): Scored<S>
    requires n >= 2 && h.currTargetLength > 0 && WellFormed(h)
  {
    var r := ScoreThrough(b, h, n, given, s0, LastScoredPos(h, n));
    if h.sourceCompleted then
      var e := b.valueForgotState(EndOfSentenceWindow(h.words, n), r.state);
      Scored(r.score + e.score, e.state)
    else r
  }

  /** The returned state and the score added to the hypothesis. */
  ghost function EvaluateOf<S>(b: Backend<S>, n: nat, h: PhraseHypothesis, ps: Option<S>): (Option<S>, real)
    requires WellFormed(h)
  {
    if n <= 1 then (None, 0.0)
    else if h.currTargetLength == 0 then (ps, 0.0)
    else
      var s0 := if ps.Some? then ps.value else b.blankState;
      var r := BoundaryScore(b, h, n, ps.Some?, s0);
      var last := LastScoredPos(h, n);
      var final := if !h.sourceCompleted && last < h.currEndPos
                   then b.getState(PaddedWindow(h.words, h.currEndPos, n), r.state)
                   else r.state;
      (Some(final), r.score)
  }

  /** `LanguageModel::Evaluate`; `added` is what it adds to the score
      collection. */
  method Evaluate<S>(b: Backend<S>, n: nat, h: PhraseHypothesis, ps: Option<S>) returns (res: Option<S>, added: real)
    requires WellFormed(h)
    ensures n <= 1 ==> res == None && added == 0.0
    ensures n >= 2 && h.currTargetLength == 0 ==> res == ps && added == 0.0
    ensures n >= 2 && h.currTargetLength > 0 ==> res.Some?
    ensures (res, added) == EvaluateOf(b, n, h, ps)
  {
    // a unigram model has no n-gram across the boundary
    if n <= 1 {
      return None, 0.0;
    }
    // empty phrase added: copy the predecessor's state
    if h.currTargetLength == 0 {
      return ps, 0.0;
    }
    var words, startPos, currEndPos := h.words, h.startPos, h.currEndPos;

    // 1st n-gram
    var contextFactor := new Word[n];
    FillPadded(contextFactor, words, startPos);
    var state := if ps.Some? then ps.value else b.blankState;
    var lmScore;
    lmScore, state := ScoreAcrossBoundary(b, h, contextFactor, ps.Some?, state);
    var endPos := Min(startPos + n - 2, currEndPos);

    // end of sentence
    if h.sourceCompleted {
      FillEndOfSentence(contextFactor, words);
      var part := b.valueForgotState(contextFactor[..], state);
      lmScore := lmScore + part.score;
      state := part.state;
    } else {
      if endPos < currEndPos {
        // the state must still be advanced over the rest of the phrase
        SlideThrough(contextFactor, words, endPos, currEndPos);
        state := b.getState(contextFactor[..], state);
      }
    }
    added := lmScore;
    res := Some(state);
  }

  /** The first n-gram, scored with the predecessor's state when there is
      one, then the main loop: at most N-2 further words slid in and scored. */
  method ScoreAcrossBoundary<S>(b: Backend<S>, h: PhraseHypothesis, contextFactor: array<Word>, given: bool, s0: S)
      returns (lmScore: real, state: S)
    requires contextFactor.Length >= 2 && h.currTargetLength > 0 && WellFormed(h)
    requires contextFactor[..] == PaddedWindow(h.words, h.startPos, contextFactor.Length)
    modifies contextFactor
    ensures contextFactor[..] == PaddedWindow(h.words, LastScoredPos(h, contextFactor.Length), contextFactor.Length)
    ensures Scored(lmScore, state) == ScoreThrough(b, h, contextFactor.Length, given, s0, LastScoredPos(h, contextFactor.Length))
  {
    var n, words, startPos := contextFactor.Length, h.words, h.startPos;
    var first := if given then b.valueGivenState(contextFactor[..], s0)
                 else b.valueForgotState(contextFactor[..], s0);
    lmScore := first.score;
    state := first.state;

    var endPos := Min(startPos + n - 2, h.currEndPos);
    var currPos := startPos + 1;
    while currPos <= endPos
      invariant startPos + 1 <= currPos <= endPos + 1
      invariant contextFactor[..] == PaddedWindow(words, currPos - 1, n)
      invariant Scored(lmScore, state) == ScoreThrough(b, h, n, given, s0, currPos - 1)
    {
      lmScore, state := ScoreNextWord(b, h, contextFactor, given, s0, currPos, lmScore, state);
      currPos := currPos + 1;
    }
  }

  /** One iteration of the main loop: slide in the word at `currPos` and
      score the window with the state the previous n-gram left. */
  method ScoreNextWord<S>(b: Backend<S>, h: PhraseHypothesis, contextFactor: array<Word>, given: bool, s0: S,
                          currPos: nat, lmScore: real, state: S)
      returns (lmScore': real, state': S)
    requires contextFactor.Length >= 1 && h.startPos < currPos < |h.words|
    requires contextFactor[..] == PaddedWindow(h.words, currPos - 1, contextFactor.Length)
    requires Scored(lmScore, state) == ScoreThrough(b, h, contextFactor.Length, given, s0, currPos - 1)
    modifies contextFactor
    ensures contextFactor[..] == PaddedWindow(h.words, currPos, contextFactor.Length)
    ensures Scored(lmScore', state') == ScoreThrough(b, h, contextFactor.Length, given, s0, currPos)
  {
    SlideIntoPadded(h.words, currPos - 1, contextFactor.Length);
    SlideIn(contextFactor, h.words[currPos]);
    var part := b.valueGivenState(contextFactor[..], state);
    lmScore' := lmScore + part.score;
    state' := part.state;
  }

  /** The loop that builds the first n-gram: positions
      `end - N + 1 .. end`, with `<s>` for negative positions. */
  method FillPadded(contextFactor: array<Word>, words: seq<Word>, end: nat)
    requires end < |words|
    modifies contextFactor
    ensures contextFactor[..] == PaddedWindow(words, end, contextFactor.Length)
  {
    var n := contextFactor.Length;
    var index := 0;
    var currPos: int := end - n + 1;
    while currPos <= end
      invariant end - n + 1 <= currPos <= end + 1
      invariant index == currPos - (end - n + 1)
      invariant forall k | 0 <= k < index :: contextFactor[k] == PaddedWindow(words, end, n)[k]
    {
      if currPos >= 0 {
        contextFactor[index] := words[currPos];
      } else {
        contextFactor[index] := SentenceStart;
      }
      index := index + 1;
      currPos := currPos + 1;
    }
  }

  /** The end-of-sentence window: `</s>` last, the N-1 slots before it
      from the end of the hypothesis. */
  method FillEndOfSentence(contextFactor: array<Word>, words: seq<Word>)
    requires contextFactor.Length >= 1 && |words| > 0
    modifies contextFactor
    ensures contextFactor[..] == EndOfSentenceWindow(words, contextFactor.Length)
  {
    var n, size := contextFactor.Length, |words|;
    contextFactor[n - 1] := SentenceEnd;
    var i := 0;
    while i < n - 1
      invariant 0 <= i <= n - 1
      invariant contextFactor[n - 1] == SentenceEnd
      invariant forall k | 0 <= k < i :: contextFactor[k] == EndOfSentenceWindow(words, n)[k]
    {
      var currPos := size - n + i + 1;
      if currPos < 0 {
        contextFactor[i] := SentenceStart;
      } else {
        contextFactor[i] := words[currPos];
      }
      i := i + 1;
    }
  }

  /** Slide the words `from + 1 .. to` into the window without scoring. */
  method SlideThrough(contextFactor: array<Word>, words: seq<Word>, from: nat, to: nat)
    requires contextFactor.Length >= 1 && from <= to < |words|
    requires contextFactor[..] == PaddedWindow(words, from, contextFactor.Length)
    modifies contextFactor
    ensures contextFactor[..] == PaddedWindow(words, to, contextFactor.Length)
  {
    var n := contextFactor.Length;
    var currPos := from + 1;
    while currPos <= to
      invariant from + 1 <= currPos <= to + 1
      invariant contextFactor[..] == PaddedWindow(words, currPos - 1, n)
    {
      SlideIntoPadded(words, currPos - 1, n);
      SlideIn(contextFactor, words[currPos]);
      currPos := currPos + 1;
    }
  }

  /** Sliding the next word into a padded window gives the padded window
      one position further on. */
  lemma SlideIntoPadded(words: seq<Word>, c: nat, n: nat)
    requires c + 1 < |words| && n >= 1
    ensures PaddedWindow(words, c, n)[1..] + [words[c + 1]] == PaddedWindow(words, c + 1, n)
  {
    var a := PaddedWindow(words, c, n)[1..] + [words[c + 1]];
    var p := PaddedWindow(words, c + 1, n);
    forall k | 0 <= k < n
      ensures a[k] == p[k]
    {
      if k < n - 1 {
        assert a[k] == PaddedWindow(words, c, n)[k + 1];
      }
    }
  }

  /** `k` copies of `<s>`. */
  ghost function Pads(k: nat): seq<Word>
  {
    seq(k, _ => SentenceStart)
  }

  /** The padded window is the last (at most N) words up to `end`, preceded
      by as many `<s>` as are needed to make N words. */
  lemma PaddedWindowShape(words: seq<Word>, end: nat, n: nat)
    requires end < |words|
    ensures |PaddedWindow(words, end, n)| == n
    ensures PaddedWindow(words, end, n) == Pads(n - Min(n, end + 1)) + LastWords(words[..end + 1], n)
  {
    var p, pad := PaddedWindow(words, end, n), n - Min(n, end + 1);
    var r := Pads(pad) + LastWords(words[..end + 1], n);
    forall k | 0 <= k < n
      ensures p[k] == r[k]
    {
      if k >= pad {
        assert r[k] == LastWords(words[..end + 1], n)[k - pad];
      }
    }
  }

  /** Dropping the oldest slot of a padded window leaves the padded window
      of one word fewer. */
  lemma PaddedDropFirst(words: seq<Word>, end: nat, n: nat)
    requires end < |words| && n >= 1
    ensures PaddedWindow(words, end, n)[1..] == PaddedWindow(words, end, n - 1)
  {
    var p, q := PaddedWindow(words, end, n)[1..], PaddedWindow(words, end, n - 1);
    forall k | 0 <= k < n - 1
      ensures p[k] == q[k]
    {
      assert p[k] == PaddedWindow(words, end, n)[k + 1];
    }
  }

  /** The end-of-sentence n-gram is the last N-1 words of the hypothesis,
      padded in front with `<s>` when the hypothesis is shorter, then `</s>`. */
  lemma EndOfSentenceShape(words: seq<Word>, n: nat)
    requires |words| > 0 && n >= 1
    ensures EndOfSentenceWindow(words, n)
      == Pads(n - 1 - Min(n - 1, |words|)) + LastWords(words, n - 1) + [SentenceEnd]
  {
    PaddedDropFirst(words, |words| - 1, n);
    PaddedWindowShape(words, |words| - 1, n - 1);
    assert words[..|words|] == words;
  }
}
