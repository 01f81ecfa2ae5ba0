/** The flat phrase scorers `LanguageModel::CalcScore` and
    `LanguageModel::CalcScoreChart`: a left-to-right walk over a phrase that
    feeds every terminal through the context window and the backend. */
module FlatScoring {
  import opened LMTypes
  import opened ContextWindows

  /** `<s>` may only stand at position 0 (the source asserts it). */
  ghost predicate StartOnlyAtFront(phrase: seq<Word>)
  {
    forall i | 0 < i < |phrase| :: phrase[i] != SentenceStart
  }

  ghost predicate AllNonTerminals(phrase: seq<Word>)
  {
    forall w | w in phrase :: w.IsNonTerminal()
  }

  ghost predicate NoNonTerminals(phrase: seq<Word>)
  {
    forall w | w in phrase :: !w.IsNonTerminal()
  }

  /** A word that receives a score: a terminal other than `<s>`. */
  predicate IsScoredWord(w: Word)
  {
    !w.IsNonTerminal() && w != SentenceStart
  }

  /** The state both flat scorers start from. */
  ghost function SeedState<S>(b: Backend<S>, phrase: seq<Word>): S
    requires |phrase| > 0
  {
    if phrase[0] == SentenceStart then b.beginSentenceState else b.nullContextState
  }

  // ---------------------------------------------------------------------
  // CalcScore

  /** The locals of `CalcScore` between two iterations. */
  datatype ScoreScan<S> = ScoreScan(window: seq<Word>, state: S, fullScore: real, ngramScore: real)

  /** One iteration of the `CalcScore` loop on word `w`. */
  ghost function CalcStep<S>(b: Backend<S>, n: nat, w: Word, st: ScoreScan<S>): ScoreScan<S>
    requires |st.window| <= n && (n >= 1 || w.IsNonTerminal())
  {
    if w.IsNonTerminal() then
      if st.window != [] then ScoreScan([], b.nullContextState, st.fullScore, st.ngramScore) else st
    else
      var win := Push(st.window, w, n);
      if w == SentenceStart then st.(window := win)
      else
        var r := b.valueGivenState(win, st.state);
        ScoreScan(win, r.state, st.fullScore + r.score,
                  if |win| == n then st.ngramScore + r.score else st.ngramScore)
  }

  /** The locals of `CalcScore` after the first `k` words. */
  ghost function CalcScan<S>(b: Backend<S>, n: nat, phrase: seq<Word>, k: nat): (r: ScoreScan<S>)
    requires 0 < |phrase| && k <= |phrase|
    requires n >= 1 || AllNonTerminals(phrase)
    ensures |r.window| <= n
  {
    if k == 0 then ScoreScan([], SeedState(b, phrase), 0.0, 0.0)
    else CalcStep(b, n, phrase[k - 1], CalcScan(b, n, phrase, k - 1))
  }

  /** The pair (fullScore, ngramScore) that `CalcScore` computes. */
  ghost function CalcScoreOf<S>(b: Backend<S>, n: nat, phrase: seq<Word>): (real, real)
    requires n >= 1 || AllNonTerminals(phrase)
  {
    if |phrase| == 0 then (0.0, 0.0)
    else
      var st := CalcScan(b, n, phrase, |phrase|);
      (st.fullScore, st.ngramScore)
  }

  /** `LanguageModel::CalcScore`. */
  method CalcScore<S>(b: Backend<S>, n: nat, phrase: seq<Word>) returns (fullScore: real, ngramScore: real)
    requires StartOnlyAtFront(phrase)
    requires n >= 1 || AllNonTerminals(phrase)
    ensures |phrase| == 0 ==> fullScore == 0.0 && ngramScore == 0.0
    ensures (fullScore, ngramScore) == CalcScoreOf(b, n, phrase)
  {
    fullScore, ngramScore := 0.0, 0.0;
    if |phrase| == 0 {
      return;
    }
    var contextFactor := new ContextWindow(n);
    var state := if phrase[0] == SentenceStart then b.beginSentenceState else b.nullContextState;
    assert CalcScan(b, n, phrase, 0) == ScoreScan([], state, 0.0, 0.0);
    var currPos := 0;
    while currPos < |phrase|
      invariant 0 <= currPos <= |phrase|
      invariant contextFactor.Valid() && contextFactor.order == n
      invariant ScoreScan(contextFactor.Words(), state, fullScore, ngramScore) == CalcScan(b, n, phrase, currPos)
    {
      state, fullScore, ngramScore := CalcScoreWord(b, contextFactor, phrase[currPos], currPos, state, fullScore, ngramScore);
      currPos := currPos + 1;
    }
  }

  /** One iteration of the `CalcScore` loop. */
  method CalcScoreWord<S>(b: Backend<S>, contextFactor: ContextWindow, word: Word, currPos: nat,
                          state: S, fullScore: real, ngramScore: real)
      returns (state': S, fullScore': real, ngramScore': real)
    requires contextFactor.Valid() && (contextFactor.order >= 1 || word.IsNonTerminal())
    requires word == SentenceStart ==> currPos == 0
    modifies contextFactor, contextFactor.buf
    ensures contextFactor.Valid()
    ensures ScoreScan(contextFactor.Words(), state', fullScore', ngramScore')
      == CalcStep(b, contextFactor.order, word, ScoreScan(old(contextFactor.Words()), state, fullScore, ngramScore))
  {
    var n := contextFactor.order;
    state', fullScore', ngramScore' := state, fullScore, ngramScore;
    if word.IsNonTerminal() {
      // a non-terminal resets the n-gram context
      if contextFactor.Words() != [] {
        state' := b.nullContextState;
        contextFactor.Clear();
      }
    } else {
      contextFactor.ShiftOrPush(word);
      if word == SentenceStart {
        // no score for the <s> unigram
        assert currPos == 0;
      } else {
        var part := b.valueGivenState(contextFactor.Words(), state);
        state' := part.state;
        fullScore' := fullScore + part.score;
        if contextFactor.len == n {
          ngramScore' := ngramScore + part.score;
        }
      }
    }
  }

  // ---------------------------------------------------------------------
  // What CalcScore computes, stated without the loop

  /** A leading `<s>` is pushed, scores nothing, and leaves the
      sentence-start state for the next word, in both flat scorers. */
  lemma LeadingStartSeeds<S>(b: Backend<S>, n: nat, phrase: seq<Word>)
    requires n >= 1 && 0 < |phrase| && phrase[0] == SentenceStart
    ensures CalcScan(b, n, phrase, 1) == ScoreScan([SentenceStart], b.beginSentenceState, 0.0, 0.0)
    ensures SplitScanOf(b, n, phrase, 1) == SplitScan([SentenceStart], b.beginSentenceState, 0.0, 0.0)
  {
  }

  /** Where the run of terminals that ends at position `k` (exclusive)
      begins: just after the last non-terminal before `k`, or 0. */
  ghost function SegmentStart(phrase: seq<Word>, k: nat): (s: nat)
    requires k <= |phrase|
    ensures s <= k
    ensures forall i | s <= i < k :: !phrase[i].IsNonTerminal()
    ensures s > 0 ==> phrase[s - 1].IsNonTerminal()
  {
    if k == 0 then 0
    else if phrase[k - 1].IsNonTerminal() then k
    else SegmentStart(phrase, k - 1)
  }

  /** The window that scores position `i`: the last `n` words of its run of
      terminals, up to and including `i`. */
  ghost function WindowAt(phrase: seq<Word>, i: nat, n: nat): seq<Word>
    requires i < |phrase|
  {
    LastWords(phrase[SegmentStart(phrase, i + 1)..i + 1], n)
  }

  /** The score the backend gives position `i`. */
  ghost function WordScore<S>(b: Backend<S>, n: nat, phrase: seq<Word>, i: nat): real
    requires n >= 1 && i < |phrase|
  {
    b.valueGivenState(WindowAt(phrase, i, n), CalcScan(b, n, phrase, i).state).score
  }

  /** Sum of the scores of every scored word before `k`. */
  ghost function FullSum<S>(b: Backend<S>, n: nat, phrase: seq<Word>, k: nat): real
    requires n >= 1 && k <= |phrase|
  {
    if k == 0 then 0.0
    else FullSum(b, n, phrase, k - 1) + (if IsScoredWord(phrase[k - 1]) then WordScore(b, n, phrase, k - 1) else 0.0)
  }

  /** Sum of the scores of the scored words before `k` that follow at least
      `n - 1` terminals of their own run, i.e. are scored with a full window. */
  ghost function NgramSum<S>(b: Backend<S>, n: nat, phrase: seq<Word>, k: nat): real
    requires n >= 1 && k <= |phrase|
  {
    if k == 0 then 0.0
    else NgramSum(b, n, phrase, k - 1) +
         (if IsScoredWord(phrase[k - 1]) && k - SegmentStart(phrase, k) >= n then WordScore(b, n, phrase, k - 1) else 0.0)
  }

  /** The window after `k` words holds the last `n` words of the current
      run of terminals, and right after a non-terminal the state is the
      null-context seed. */
  lemma {:induction false} CalcScanWindow<S>(b: Backend<S>, n: nat, phrase: seq<Word>, k: nat)
    requires n >= 1 && 0 < |phrase| && k <= |phrase|
    ensures CalcScan(b, n, phrase, k).window == LastWords(phrase[SegmentStart(phrase, k)..k], n)
    ensures k > 0 && SegmentStart(phrase, k) == k ==> CalcScan(b, n, phrase, k).state == b.nullContextState
  {
    if k > 0 {
      CalcScanWindow(b, n, phrase, k - 1);
      if phrase[k - 1].IsNonTerminal() {
        CalcWindowAfterNonTerminal(b, n, phrase, k);
      } else {
        CalcWindowAfterTerminal(b, n, phrase, k);
      }
    }
  }

  lemma CalcWindowAfterNonTerminal<S>(b: Backend<S>, n: nat, phrase: seq<Word>, k: nat)
    requires n >= 1 && 0 < k <= |phrase| && phrase[k - 1].IsNonTerminal()
    requires CalcScan(b, n, phrase, k - 1).window == LastWords(phrase[SegmentStart(phrase, k - 1)..k - 1], n)
    requires k - 1 > 0 && SegmentStart(phrase, k - 1) == k - 1 ==> CalcScan(b, n, phrase, k - 1).state == b.nullContextState
    ensures CalcScan(b, n, phrase, k).window == [] && CalcScan(b, n, phrase, k).state == b.nullContextState
  {
    var prev := CalcScan(b, n, phrase, k - 1);
    var s := SegmentStart(phrase, k - 1);
    if prev.window == [] {
      if k - 1 > 0 {
        assert |LastWords(phrase[s..k - 1], n)| == Min(n, k - 1 - s);
      } else {
        assert phrase[0] != SentenceStart;
      }
    }
    NonTerminalStep(b, n, phrase[k - 1], prev);
  }

  /** A non-terminal leaves an empty window and the null-context state,
      provided an already empty window holds that state. */
  lemma NonTerminalStep<S>(b: Backend<S>, n: nat, w: Word, st: ScoreScan<S>)
    requires |st.window| <= n && w.IsNonTerminal()
    requires st.window == [] ==> st.state == b.nullContextState
    ensures CalcStep(b, n, w, st).window == [] && CalcStep(b, n, w, st).state == b.nullContextState
  {
  }

  lemma CalcWindowAfterTerminal<S>(b: Backend<S>, n: nat, phrase: seq<Word>, k: nat)
    requires n >= 1 && 0 < k <= |phrase| && !phrase[k - 1].IsNonTerminal()
    requires CalcScan(b, n, phrase, k - 1).window == LastWords(phrase[SegmentStart(phrase, k - 1)..k - 1], n)
    ensures CalcScan(b, n, phrase, k).window == LastWords(phrase[SegmentStart(phrase, k)..k], n)
  {
    var prev := CalcScan(b, n, phrase, k - 1);
    var s := SegmentStart(phrase, k - 1);
    var w := phrase[k - 1];
    assert CalcScan(b, n, phrase, k).window == Push(prev.window, w, n);
    PushLast(phrase[s..k - 1], w, n);
    SliceSnoc(phrase, s, k);
  }

  lemma SliceSnoc(p: seq<Word>, s: nat, k: nat)
    requires s < k <= |p|
    ensures p[s..k] == p[s..k - 1] + [p[k - 1]]
  {
  }

  /** A non-terminal at `j` empties the window and reseeds the state from
      the null context, and no word up to `j` is in any later window. */
  lemma NonTerminalResets<S>(b: Backend<S>, n: nat, phrase: seq<Word>, j: nat, k: nat)
    requires n >= 1 && j < k <= |phrase| && phrase[j].IsNonTerminal()
    ensures var w := CalcScan(b, n, phrase, k).window;
      k - |w| > j && w == phrase[k - |w|..k]
    ensures k == j + 1 ==> CalcScan(b, n, phrase, k).window == [] && CalcScan(b, n, phrase, k).state == b.nullContextState
  {
    CalcScanWindow(b, n, phrase, k);
    SegmentAfter(phrase, j, k);
    var s := SegmentStart(phrase, k);
    var seg := phrase[s..k];
    var m := Min(n, |seg|);
    assert LastWords(seg, n) == phrase[k - m..k];
  }

  lemma {:induction false} SegmentAfter(phrase: seq<Word>, j: nat, k: nat)
    requires j < k <= |phrase| && phrase[j].IsNonTerminal()
    ensures SegmentStart(phrase, k) > j
    ensures k == j + 1 ==> SegmentStart(phrase, k) == k
  {
    if k > j + 1 {
      if !phrase[k - 1].IsNonTerminal() {
        SegmentAfter(phrase, j, k - 1);
      }
    }
  }

  /** `fullScore` is the sum over every scored word (every terminal except
      the leading `<s>`), and `ngramScore` the sum over exactly those scored
      with a window of length `n`. */
  lemma {:induction false} CalcScanSums<S>(b: Backend<S>, n: nat, phrase: seq<Word>, k: nat)
    requires n >= 1 && 0 < |phrase| && k <= |phrase|
    ensures CalcScan(b, n, phrase, k).fullScore == FullSum(b, n, phrase, k)
    ensures CalcScan(b, n, phrase, k).ngramScore == NgramSum(b, n, phrase, k)
  {
    if k > 0 {
      CalcScanSums(b, n, phrase, k - 1);
      CalcSumsStep(b, n, phrase, k);
    }
  }

  lemma CalcSumsStep<S>(b: Backend<S>, n: nat, phrase: seq<Word>, k: nat)
    requires n >= 1 && 0 < k <= |phrase|
    requires CalcScan(b, n, phrase, k - 1).fullScore == FullSum(b, n, phrase, k - 1)
    requires CalcScan(b, n, phrase, k - 1).ngramScore == NgramSum(b, n, phrase, k - 1)
    ensures CalcScan(b, n, phrase, k).fullScore == FullSum(b, n, phrase, k)
    ensures CalcScan(b, n, phrase, k).ngramScore == NgramSum(b, n, phrase, k)
  {
    if IsScoredWord(phrase[k - 1]) {
      CalcScanWindow(b, n, phrase, k);
      CalcSumsAfterScoredWord(b, n, phrase, k);
    } else {
      assert CalcScan(b, n, phrase, k) == CalcStep(b, n, phrase[k - 1], CalcScan(b, n, phrase, k - 1));
    }
  }

  lemma CalcSumsAfterScoredWord<S>(b: Backend<S>, n: nat, phrase: seq<Word>, k: nat)
    requires n >= 1 && 0 < k <= |phrase| && IsScoredWord(phrase[k - 1])
    requires CalcScan(b, n, phrase, k).window == LastWords(phrase[SegmentStart(phrase, k)..k], n)
    ensures CalcScan(b, n, phrase, k).fullScore == CalcScan(b, n, phrase, k - 1).fullScore + WordScore(b, n, phrase, k - 1)
    ensures CalcScan(b, n, phrase, k).ngramScore == CalcScan(b, n, phrase, k - 1).ngramScore +
      (if k - SegmentStart(phrase, k) >= n then WordScore(b, n, phrase, k - 1) else 0.0)
  {
    var prev := CalcScan(b, n, phrase, k - 1);
    var w := phrase[k - 1];
    var s := SegmentStart(phrase, k);
    var win := Push(prev.window, w, n);
    var r := b.valueGivenState(win, prev.state);
    assert CalcScan(b, n, phrase, k) == ScoreScan(win, r.state, prev.fullScore + r.score,
              if |win| == n then prev.ngramScore + r.score else prev.ngramScore);
    assert |LastWords(phrase[s..k], n)| == Min(n, k - s);
  }

  /** The same facts about the result of `CalcScore`. */
  lemma CalcScoreSums<S>(b: Backend<S>, n: nat, phrase: seq<Word>)
    requires n >= 1 && 0 < |phrase|
    ensures CalcScoreOf(b, n, phrase) == (FullSum(b, n, phrase, |phrase|), NgramSum(b, n, phrase, |phrase|))
  {
    CalcScanSums(b, n, phrase, |phrase|);
  }

  /** A phrase made only of non-terminals scores 0 (for an empty phrase
      that is the method's own guard). */
  lemma {:induction false} NonTerminalsScoreZero<S>(b: Backend<S>, n: nat, phrase: seq<Word>, k: nat)
    requires AllNonTerminals(phrase) && 0 < |phrase| && k <= |phrase|
    ensures CalcScan(b, n, phrase, k).fullScore == 0.0 && CalcScan(b, n, phrase, k).ngramScore == 0.0
  {
    if k > 0 {
      NonTerminalsScoreZero(b, n, phrase, k - 1);
    }
  }

  lemma NonTerminalPhraseScoresZero<S>(b: Backend<S>, n: nat, phrase: seq<Word>)
    requires AllNonTerminals(phrase)
    ensures CalcScoreOf(b, n, phrase) == (0.0, 0.0)
  {
    if |phrase| > 0 {
      NonTerminalsScoreZero(b, n, phrase, |phrase|);
    }
  }

  // ---------------------------------------------------------------------
  // CalcScoreChart

  /** The locals of `CalcScoreChart` between two iterations. */
  datatype SplitScan<S> = SplitScan(window: seq<Word>, state: S, beginningBitsOnly: real, ngramScore: real)

  /** One iteration of the `CalcScoreChart` loop on terminal `w`. */
  ghost function SplitStep<S>(b: Backend<S>, n: nat, w: Word, st: SplitScan<S>): SplitScan<S>
    requires n >= 1 && |st.window| <= n
  {
    var win := Push(st.window, w, n);
    if w == SentenceStart then st.(window := win)
    else
      var r := b.valueGivenState(win, st.state);
      if |win| == n then SplitScan(win, r.state, st.beginningBitsOnly, st.ngramScore + r.score)
      else SplitScan(win, r.state, st.beginningBitsOnly + r.score, st.ngramScore)
  }

  ghost function SplitScanOf<S>(b: Backend<S>, n: nat, phrase: seq<Word>, k: nat): (r: SplitScan<S>)
    requires n >= 1 && 0 < |phrase| && k <= |phrase|
    ensures |r.window| <= n
  {
    if k == 0 then SplitScan([], SeedState(b, phrase), 0.0, 0.0)
    else SplitStep(b, n, phrase[k - 1], SplitScanOf(b, n, phrase, k - 1))
  }

  /** The pair (beginningBitsOnly, ngramScore) that `CalcScoreChart` computes. */
  ghost function CalcScoreChartOf<S>(b: Backend<S>, n: nat, phrase: seq<Word>): (real, real)
    requires n >= 1 || |phrase| == 0
  {
    if |phrase| == 0 then (0.0, 0.0)
    else
      var st := SplitScanOf(b, n, phrase, |phrase|);
      (st.beginningBitsOnly, st.ngramScore)
  }

  /** `LanguageModel::CalcScoreChart`. */
  method CalcScoreChart<S>(b: Backend<S>, n: nat, phrase: seq<Word>) returns (beginningBitsOnly: real, ngramScore: real)
    requires NoNonTerminals(phrase) && StartOnlyAtFront(phrase)
    requires n >= 1 || |phrase| == 0
    ensures (beginningBitsOnly, ngramScore) == CalcScoreChartOf(b, n, phrase)
  {
    beginningBitsOnly, ngramScore := 0.0, 0.0;
    if |phrase| == 0 {
      return;
    }
    assert n >= 1;
    var contextFactor := new ContextWindow(n);
    var state := if phrase[0] == SentenceStart then b.beginSentenceState else b.nullContextState;
    assert SplitScanOf(b, n, phrase, 0) == SplitScan([], state, 0.0, 0.0);
    var currPos := 0;
    while currPos < |phrase|
      invariant 0 <= currPos <= |phrase|
      invariant contextFactor.Valid() && contextFactor.order == n
      invariant SplitScan(contextFactor.Words(), state, beginningBitsOnly, ngramScore) == SplitScanOf(b, n, phrase, currPos)
    {
      state, beginningBitsOnly, ngramScore :=
        CalcScoreChartWord(b, contextFactor, phrase[currPos], currPos, state, beginningBitsOnly, ngramScore);
      currPos := currPos + 1;
    }
  }

  /** One iteration of the `CalcScoreChart` loop: push the word and, unless
      it is `<s>` (which only stands at position 0), score it and file the
      score by the window length. */
  method CalcScoreChartWord<S>(b: Backend<S>, contextFactor: ContextWindow, word: Word, currPos: nat,
                               state: S, beginningBitsOnly: real, ngramScore: real)
      returns (state': S, beginningBitsOnly': real, ngramScore': real)
    requires contextFactor.Valid() && contextFactor.order >= 1
    requires word == SentenceStart ==> currPos == 0
    modifies contextFactor, contextFactor.buf
    ensures contextFactor.Valid()
    ensures SplitScan(contextFactor.Words(), state', beginningBitsOnly', ngramScore')
      == SplitStep(b, contextFactor.order, word, SplitScan(old(contextFactor.Words()), state, beginningBitsOnly, ngramScore))
  {
    var n := contextFactor.order;
    state', beginningBitsOnly', ngramScore' := state, beginningBitsOnly, ngramScore;
    contextFactor.ShiftOrPush(word);
    if word == SentenceStart {
      assert currPos == 0;
    } else {
      var part := b.valueGivenState(contextFactor.Words(), state);
      state' := part.state;
      if contextFactor.len == n {
        ngramScore' := ngramScore + part.score;
      } else {
        beginningBitsOnly' := beginningBitsOnly + part.score;
      }
    }
  }

  /** What the two flat walks share: window and state, `CalcScoreChart`'s
      two parts adding up to `CalcScore`'s full score, and equal n-gram
      parts. */
  ghost predicate ScansAgree<S>(c: SplitScan<S>, f: ScoreScan<S>)
  {
    c.window == f.window && c.state == f.state &&
    c.beginningBitsOnly + c.ngramScore == f.fullScore && c.ngramScore == f.ngramScore
  }

  /** Both walks treat a terminal alike. */
  lemma ScansAgreeAfterTerminal<S>(b: Backend<S>, n: nat, c: SplitScan<S>, f: ScoreScan<S>, w: Word)
    requires n >= 1 && |c.window| <= n && ScansAgree(c, f) && !w.IsNonTerminal()
    ensures ScansAgree(SplitStep(b, n, w, c), CalcStep(b, n, w, f))
  {
  }

  /** On a phrase without non-terminals both scorers make the same walk:
      each score lands in exactly one of `beginningBitsOnly` and
      `ngramScore`, their sum is `CalcScore`'s `fullScore`, and the n-gram
      parts agree. */
  lemma {:induction false} SplitScanMatchesCalcScan<S>(b: Backend<S>, n: nat, phrase: seq<Word>, k: nat)
    requires n >= 1 && 0 < |phrase| && k <= |phrase| && NoNonTerminals(phrase)
    ensures ScansAgree(SplitScanOf(b, n, phrase, k), CalcScan(b, n, phrase, k))
  {
    if k > 0 {
      SplitScanMatchesCalcScan(b, n, phrase, k - 1);
      var w := phrase[k - 1];
      var c, f := SplitScanOf(b, n, phrase, k - 1), CalcScan(b, n, phrase, k - 1);
      assert !w.IsNonTerminal();
      assert SplitScanOf(b, n, phrase, k) == SplitStep(b, n, w, c);
      assert CalcScan(b, n, phrase, k) == CalcStep(b, n, w, f);
      ScansAgreeAfterTerminal(b, n, c, f, w);
    }
  }

  /** The results: `beginningBitsOnly + ngramScore` of `CalcScoreChart` is
      `CalcScore`'s `fullScore`, and the n-gram parts are equal. */
  lemma CalcScoreChartSplitsCalcScore<S>(b: Backend<S>, n: nat, phrase: seq<Word>)
    requires n >= 1 && NoNonTerminals(phrase)
    ensures CalcScoreChartOf(b, n, phrase).0 + CalcScoreChartOf(b, n, phrase).1 == CalcScoreOf(b, n, phrase).0
    ensures CalcScoreChartOf(b, n, phrase).1 == CalcScoreOf(b, n, phrase).1
  {
    if |phrase| > 0 {
      SplitScanMatchesCalcScan(b, n, phrase, |phrase|);
      assert ScansAgree(SplitScanOf(b, n, phrase, |phrase|), CalcScan(b, n, phrase, |phrase|));
    }
  }
}
