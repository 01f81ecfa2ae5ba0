/** The chart (hierarchical) scorer `LanguageModel::EvaluateChart`: a walk
    over a rule's target side in which non-terminal slots are filled by
    already scored child hypotheses. Every score goes either to the prefix
    part (the word lacks a full left context inside the span) or to the
    finalized part, as `updateChartScore` decides by the running word
    count. */
module ChartScoring {
  import opened LMTypes
  import opened ContextWindows
  import opened FlatScoring

  /** What the scorer reads of a child hypothesis: its number of target
      terminals, its first and last words, its language-model score (the
      whole and the prefix part) and its right-context state. */
  datatype ChildHypothesis<S> = ChildHypothesis(
    numTerminals: nat,
    prefix: seq<Word>,
    suffix: seq<Word>,
    fullScore: real,
    prefixScore: real,
    rightContext: S)

  /** A rule application: the rule's target side, the map from phrase
      positions to child indices, and the children. */
  datatype ChartHypothesis<S> = ChartHypothesis(
    targetPhrase: seq<Word>,
    nonTermIndex: seq<nat>,
    prevHypos: seq<ChildHypothesis<S>>)

  /** `LanguageModelChartState`: the prefix score and the right context. */
  datatype LanguageModelChartState<S> = LanguageModelChartState(prefixScore: real, rightContext: S)

  /** The two accumulators `prefixScore` and `finalizedScore`. */
  datatype ChartScores = ChartScores(prefix: real, finalized: real)

  /** How many suffix words an interior child longer than N-1 pushes:
      its words past the first N-1, but no more than N-1. */
  function RemainingWords(numTerminals: nat, n: nat): (r: nat)
    requires n >= 1 && numTerminals > n - 1
    ensures r <= numTerminals - (n - 1) && r <= n - 1
    ensures r == numTerminals - (n - 1) || r == n - 1
  {
    Min(numTerminals - (n - 1), n - 1)
  }

  /** What the scorer needs of a child in an interior slot: enough prefix
      words to re-score, and enough suffix words to push. */
  ghost predicate InteriorChildFits<S>(c: ChildHypothesis<S>, n: nat)
    requires n >= 1
  {
    |c.prefix| >= Min(n - 1, c.numTerminals) &&
    (c.numTerminals > n - 1 ==> |c.suffix| >= RemainingWords(c.numTerminals, n))
  }

  /** What the scorer demands of rule position `p`: a non-terminal there
      maps to a child, and the child of an interior slot fits. */
  ghost predicate SlotFilled<S>(h: ChartHypothesis<S>, n: nat, p: nat)
    requires n >= 1 && p < |h.targetPhrase|
  {
    h.targetPhrase[p].IsNonTerminal() ==>
      p < |h.nonTermIndex| && h.nonTermIndex[p] < |h.prevHypos| &&
      (0 < p ==> InteriorChildFits(h.prevHypos[h.nonTermIndex[p]], n))
  }

  /** The demands the scorer makes of a rule application: every
      non-terminal position maps to a child, `<s>` only at the front, and
      interior children fit. */
  ghost predicate WellFormedRule<S>(h: ChartHypothesis<S>, n: nat)
  {
    n >= 1 && StartOnlyAtFront(h.targetPhrase) &&
    forall p | 0 <= p < |h.targetPhrase| :: SlotFilled(h, n, p)
  }

  /** The child filling the non-terminal at position `p`; an interior one fits. */
  ghost function ChildAt<S>(h: ChartHypothesis<S>, n: nat, p: nat): (c: ChildHypothesis<S>)
    requires WellFormedRule(h, n) && p < |h.targetPhrase| && h.targetPhrase[p].IsNonTerminal()
    ensures 0 < p ==> InteriorChildFits(c, n)
  {
    assert SlotFilled(h, n, p);
    h.prevHypos[h.nonTermIndex[p]]
  }

  /** `LanguageModel::updateChartScore`. */
  function UpdateChartScore(sc: ChartScores, score: real, wordPos: nat, n: nat): (r: ChartScores)
    ensures r.prefix + r.finalized == sc.prefix + sc.finalized + score
    ensures wordPos < n ==> r.finalized == sc.finalized
    ensures wordPos >= n ==> r.prefix == sc.prefix
  {
    if wordPos < n then ChartScores(sc.prefix + score, sc.finalized)
    else ChartScores(sc.prefix, sc.finalized + score)
  }

  /** The locals of `EvaluateChart` between two steps. */
  datatype ChartWalk<S> = ChartWalk(window: seq<Word>, lmState: S, scores: ChartScores, wordPos: nat)

  /** Push one word, score it with the current state and file the
      untransformed score under the incremented word count. */
  ghost function ScoreWord<S>(b: Backend<S>, n: nat, st: ChartWalk<S>, w: Word): (r: ChartWalk<S>)
    requires n >= 1 && |st.window| <= n
    ensures |r.window| <= n
  {
    var win := Push(st.window, w, n);
    var r := b.valueGivenState(win, st.lmState);
    ChartWalk(win, r.state, UpdateChartScore(st.scores, b.untransform(r.score), st.wordPos + 1, n), st.wordPos + 1)
  }

  /** `ScoreWord` on each word of `ws`, first to last. */
  ghost function ScoreWords<S>(b: Backend<S>, n: nat, st: ChartWalk<S>, ws: seq<Word>): (r: ChartWalk<S>)
    requires n >= 1 && |st.window| <= n
    ensures |r.window| <= n
    decreases |ws|
  {
    if ws == [] then st
    else ScoreWord(b, n, ScoreWords(b, n, st, ws[..|ws| - 1]), ws[|ws| - 1])
  }

  /** The suffix words a leading child pushes: at most the last N-1. */
  ghost function LeadingSuffix<S>(c: ChildHypothesis<S>, n: nat): (r: seq<Word>)
    requires n >= 1
    ensures r == LastWords(c.suffix, n - 1)
    ensures |r| == Min(n - 1, |c.suffix|)
  {
    var suffixPos := if |c.suffix| >= n - 1 then |c.suffix| - (n - 1) else 0;
    c.suffix[suffixPos..]
  }

  /** A leading non-terminal: the child's scores and state are copied and
      the last (at most N-1) words of its suffix pushed, none of them scored. */
  ghost function LeadingStep<S>(n: nat, c: ChildHypothesis<S>, st: ChartWalk<S>): (r: ChartWalk<S>)
    requires n >= 1 && |st.window| <= n
    ensures |r.window| <= n
  {
    var pushed := LeadingSuffix(c, n);
    ChartWalk(PushAll(st.window, pushed, n), c.rightContext,
              ChartScores(c.prefixScore, c.fullScore - c.prefixScore), st.wordPos + |pushed|)
  }

  /** An interior non-terminal: the child's first `min(N-1, numTerminals)`
      words are scored again with the context on their left; a child longer
      than N-1 then brings its settled score and its state, and pushes the
      last words of its suffix unscored. */
  ghost function InteriorStep<S>(b: Backend<S>, n: nat, c: ChildHypothesis<S>, st: ChartWalk<S>): (r: ChartWalk<S>)
    requires n >= 1 && |st.window| <= n && InteriorChildFits(c, n)
    ensures |r.window| <= n
  {
    var s1 := ScoreWords(b, n, st, c.prefix[..Min(n - 1, c.numTerminals)]);
    if c.numTerminals > n - 1 then
      var pushed := c.suffix[|c.suffix| - RemainingWords(c.numTerminals, n)..];
      ChartWalk(PushAll(s1.window, pushed, n), c.rightContext,
                ChartScores(s1.scores.prefix, s1.scores.finalized + (c.fullScore - c.prefixScore)),
                s1.wordPos + c.numTerminals)
    else s1
  }

  /** One iteration of the rule loop, at position `p`. */
  ghost function ChartStep<S>(b: Backend<S>, n: nat, h: ChartHypothesis<S>, p: nat, st: ChartWalk<S>): (r: ChartWalk<S>)
    requires WellFormedRule(h, n) && p < |h.targetPhrase| && |st.window| <= n
    ensures |r.window| <= n
  {
    var w := h.targetPhrase[p];
    if !w.IsNonTerminal() then
      if w == SentenceStart then st.(window := Push(st.window, w, n), lmState := b.beginSentenceState)
      else ScoreWord(b, n, st, w)
    else if p == 0 then LeadingStep(n, ChildAt(h, n, p), st)
    else InteriorStep(b, n, ChildAt(h, n, p), st)
  }

  /** The locals of `EvaluateChart` after the first `k` rule positions. */
  ghost function ChartWalkOf<S>(b: Backend<S>, n: nat, h: ChartHypothesis<S>, k: nat): (r: ChartWalk<S>)
    requires WellFormedRule(h, n) && k <= |h.targetPhrase|
    ensures |r.window| <= n
  {
    if k == 0 then ChartWalk([], b.nullContextState, ChartScores(0.0, 0.0), 0)
    else ChartStep(b, n, h, k - 1, ChartWalkOf(b, n, h, k - 1))
  }

  /** `LanguageModel::EvaluateChart`: `score` is the value assigned to the
      score collection and `res` the returned state. */
  method EvaluateChart<S>(b: Backend<S>, n: nat, h: ChartHypothesis<S>)
      returns (score: real, res: LanguageModelChartState<S>)
    requires WellFormedRule(h, n)
    ensures var st := ChartWalkOf(b, n, h, |h.targetPhrase|);
      score == st.scores.prefix + st.scores.finalized &&
      res == LanguageModelChartState(st.scores.prefix, st.lmState)
  {
    var contextFactor := new ContextWindow(n);
    var lmState := b.nullContextState;
    var prefixScore, finalizedScore := 0.0, 0.0;
    var wordPos: nat := 0;
    var phrase := h.targetPhrase;
    var phrasePos := 0;
    while phrasePos < |phrase|
      invariant 0 <= phrasePos <= |phrase|
      invariant contextFactor.Valid() && contextFactor.order == n
      invariant ChartWalk(contextFactor.Words(), lmState, ChartScores(prefixScore, finalizedScore), wordPos)
                == ChartWalkOf(b, n, h, phrasePos)
    {
      lmState, prefixScore, finalizedScore, wordPos :=
        ScorePosition(b, h, phrasePos, contextFactor, lmState, prefixScore, finalizedScore, wordPos);
      phrasePos := phrasePos + 1;
    }
    score := prefixScore + finalizedScore;
    res := LanguageModelChartState(prefixScore, lmState);
  }

  /** One iteration of the rule loop: the word or slot at `phrasePos`. */
  method ScorePosition<S>(b: Backend<S>, h: ChartHypothesis<S>, phrasePos: nat, contextFactor: ContextWindow,
                          lmState: S, prefixScore: real, finalizedScore: real, wordPos: nat)
      returns (lmState': S, prefixScore': real, finalizedScore': real, wordPos': nat)
    requires contextFactor.Valid() && WellFormedRule(h, contextFactor.order) && phrasePos < |h.targetPhrase|
    requires ChartWalk(contextFactor.Words(), lmState, ChartScores(prefixScore, finalizedScore), wordPos)
      == ChartWalkOf(b, contextFactor.order, h, phrasePos)
    modifies contextFactor, contextFactor.buf
    ensures contextFactor.Valid()
    ensures ChartWalk(contextFactor.Words(), lmState', ChartScores(prefixScore', finalizedScore'), wordPos')
      == ChartWalkOf(b, contextFactor.order, h, phrasePos + 1)
  {
    var n, phrase := contextFactor.order, h.targetPhrase;
    ghost var st0 := ChartWalk(contextFactor.Words(), lmState, ChartScores(prefixScore, finalizedScore), wordPos);
    assert ChartWalkOf(b, n, h, phrasePos + 1) == ChartStep(b, n, h, phrasePos, st0);
    lmState', prefixScore', finalizedScore', wordPos' := lmState, prefixScore, finalizedScore, wordPos;
    var word := phrase[phrasePos];
    if !word.IsNonTerminal() {
      if word == SentenceStart {
        contextFactor.ShiftOrPush(word);
        lmState' := b.beginSentenceState;
      } else {
        assert ChartStep(b, n, h, phrasePos, st0) == ScoreWord(b, n, st0, word);
        lmState', prefixScore', finalizedScore', wordPos' :=
          ScoreOneWord(b, contextFactor, word, lmState, prefixScore, finalizedScore, wordPos);
      }
    } else {
      assert SlotFilled(h, n, phrasePos);
      var prevHypo := h.prevHypos[h.nonTermIndex[phrasePos]];
      assert prevHypo == ChildAt(h, n, phrasePos);
      if phrasePos == 0 {
        lmState', prefixScore', finalizedScore', wordPos' := 
          LeadingSlot(contextFactor, prevHypo, lmState, prefixScore, finalizedScore, wordPos);
      } else {
        assert InteriorChildFits(prevHypo, n);
        lmState', prefixScore', finalizedScore', wordPos' :=
          InteriorSlot(b, contextFactor, prevHypo, lmState, prefixScore, finalizedScore, wordPos);
      }
    }
  }

  /** A terminal, whether of the rule or of a child's prefix: push it,
      score it with the current state, and file the untransformed score
      under the incremented word count. */
  method ScoreOneWord<S>(b: Backend<S>, contextFactor: ContextWindow, word: Word,
                         lmState: S, prefixScore: real, finalizedScore: real, wordPos: nat)
      returns (lmState': S, prefixScore': real, finalizedScore': real, wordPos': nat)
    requires contextFactor.Valid() && contextFactor.order >= 1
    modifies contextFactor, contextFactor.buf
    ensures contextFactor.Valid()
    ensures ChartWalk(contextFactor.Words(), lmState', ChartScores(prefixScore', finalizedScore'), wordPos')
      == ScoreWord(b, contextFactor.order, ChartWalk(old(contextFactor.Words()), lmState, ChartScores(prefixScore, finalizedScore), wordPos), word)
  {
    contextFactor.ShiftOrPush(word);
    wordPos' := wordPos + 1;
    var part := b.valueGivenState(contextFactor.Words(), lmState);
    lmState' := part.state;
    var sc := UpdateChartScore(ChartScores(prefixScore, finalizedScore), b.untransform(part.score), wordPos', contextFactor.order);
    prefixScore', finalizedScore' := sc.prefix, sc.finalized;
  }

  /** A rule that starts with a non-terminal copies the child's scores and
      state, and pushes the last N-1 words of its suffix. */
  method LeadingSlot<S>(contextFactor: ContextWindow, prevHypo: ChildHypothesis<S>,
                        lmState: S, prefixScore: real, finalizedScore: real, wordPos: nat)
      returns (lmState': S, prefixScore': real, finalizedScore': real, wordPos': nat)
    requires contextFactor.Valid() && contextFactor.order >= 1
    modifies contextFactor, contextFactor.buf
    ensures contextFactor.Valid()
    ensures ChartWalk(contextFactor.Words(), lmState', ChartScores(prefixScore', finalizedScore'), wordPos')
      == LeadingStep(contextFactor.order, prevHypo, ChartWalk(old(contextFactor.Words()), lmState, ChartScores(prefixScore, finalizedScore), wordPos))
  {
    var n := contextFactor.order;
    prefixScore' := prevHypo.prefixScore;
    finalizedScore' := prevHypo.fullScore - prefixScore';
    lmState' := prevHypo.rightContext;
    var suffixPos: int := |prevHypo.suffix| - (n - 1);
    if suffixPos < 0 {
      suffixPos := 0;
    }
    assert prevHypo.suffix[suffixPos..] == LeadingSuffix(prevHypo, n);
    PushSuffix(contextFactor, prevHypo.suffix, suffixPos);
    wordPos' := wordPos + (|prevHypo.suffix| - suffixPos);
  }

  /** An interior non-terminal: re-score the child's first words; a child
      longer than N-1 also brings its settled score and state, and the last
      words of its suffix. */
  method InteriorSlot<S>(b: Backend<S>, contextFactor: ContextWindow, prevHypo: ChildHypothesis<S>,
                         lmState: S, prefixScore: real, finalizedScore: real, wordPos: nat)
      returns (lmState': S, prefixScore': real, finalizedScore': real, wordPos': nat)
    requires contextFactor.Valid() && contextFactor.order >= 1 && InteriorChildFits(prevHypo, contextFactor.order)
    modifies contextFactor, contextFactor.buf
    ensures contextFactor.Valid()
    ensures ChartWalk(contextFactor.Words(), lmState', ChartScores(prefixScore', finalizedScore'), wordPos')
      == InteriorStep(b, contextFactor.order, prevHypo,
                      ChartWalk(old(contextFactor.Words()), lmState, ChartScores(prefixScore, finalizedScore), wordPos))
  {
    var n := contextFactor.order;
    var subPhraseLength := prevHypo.numTerminals;
    ghost var st0 := ChartWalk(contextFactor.Words(), lmState, ChartScores(prefixScore, finalizedScore), wordPos);
    ghost var s1 := ScoreWords(b, n, st0, prevHypo.prefix[..Min(n - 1, subPhraseLength)]);
    lmState', prefixScore', finalizedScore', wordPos' :=
      ScoreChildPrefix(b, contextFactor, lmState, prefixScore, finalizedScore, wordPos, prevHypo.prefix, subPhraseLength);
    assert ChartWalk(contextFactor.Words(), lmState', ChartScores(prefixScore', finalizedScore'), wordPos') == s1;
    if subPhraseLength > n - 1 {
      // a long child: its settled score is already final
      finalizedScore' := finalizedScore' + (prevHypo.fullScore - prevHypo.prefixScore);
      lmState' := prevHypo.rightContext;
      var remainingWords := subPhraseLength - (n - 1);
      if remainingWords > n - 1 {
        remainingWords := n - 1;
      }
      assert remainingWords == RemainingWords(subPhraseLength, n);
      PushSuffix(contextFactor, prevHypo.suffix, |prevHypo.suffix| - remainingWords);
      wordPos' := wordPos' + subPhraseLength;
    }
  }

  /** The suffix loops: push `suffix[from..]` without scoring it. */
  method PushSuffix(contextFactor: ContextWindow, suffix: seq<Word>, from: nat)
    requires contextFactor.Valid() && contextFactor.order >= 1 && from <= |suffix|
    modifies contextFactor, contextFactor.buf
    ensures contextFactor.Valid()
    ensures contextFactor.Words() == PushAll(old(contextFactor.Words()), suffix[from..], contextFactor.order)
  {
    ghost var buf0, n, w0 := contextFactor.buf, contextFactor.order, contextFactor.Words();
    var suffixPos := from;
    while suffixPos < |suffix|
      invariant from <= suffixPos <= |suffix|
      invariant contextFactor.Valid() && contextFactor.buf == buf0 && contextFactor.order == n
      invariant contextFactor.Words() == PushAll(w0, suffix[from..suffixPos], n)
    {
      assert suffix[from..suffixPos + 1][..suffixPos - from] == suffix[from..suffixPos];
      assert PushAll(w0, suffix[from..suffixPos + 1], n) == Push(PushAll(w0, suffix[from..suffixPos], n), suffix[suffixPos], n);
      contextFactor.ShiftOrPush(suffix[suffixPos]);
      suffixPos := suffixPos + 1;
    }
    assert suffix[from..suffixPos] == suffix[from..];
  }

  /** The interior prefix loop: re-score the child's first
      `min(N-1, subPhraseLength)` words. */
  method ScoreChildPrefix<S>(b: Backend<S>, contextFactor: ContextWindow, lmState: S, prefixScore: real,
                             finalizedScore: real, wordPos: nat, prefix: seq<Word>, subPhraseLength: nat)
      returns (lmState': S, prefixScore': real, finalizedScore': real, wordPos': nat)
    requires contextFactor.Valid() && contextFactor.order >= 1
    requires |prefix| >= Min(contextFactor.order - 1, subPhraseLength)
    modifies contextFactor, contextFactor.buf
    ensures contextFactor.Valid()
    ensures var n := contextFactor.order;
      ChartWalk(contextFactor.Words(), lmState', ChartScores(prefixScore', finalizedScore'), wordPos')
      == ScoreWords(b, n, ChartWalk(old(contextFactor.Words()), lmState, ChartScores(prefixScore, finalizedScore), wordPos),
                    prefix[..Min(n - 1, subPhraseLength)])
  {
    var n := contextFactor.order;
    ghost var buf0 := contextFactor.buf;
    ghost var st0 := ChartWalk(contextFactor.Words(), lmState, ChartScores(prefixScore, finalizedScore), wordPos);
    lmState', prefixScore', finalizedScore', wordPos' := lmState, prefixScore, finalizedScore, wordPos;
    var prefixPos := 0;
    while prefixPos < n - 1 && prefixPos < subPhraseLength
      invariant prefixPos <= Min(n - 1, subPhraseLength)
      invariant contextFactor.Valid() && contextFactor.buf == buf0 && contextFactor.order == n
      invariant ChartWalk(contextFactor.Words(), lmState', ChartScores(prefixScore', finalizedScore'), wordPos')
                == ScoreWords(b, n, st0, prefix[..prefixPos])
    {
      ghost var before := ChartWalk(contextFactor.Words(), lmState', ChartScores(prefixScore', finalizedScore'), wordPos');
      assert prefix[..prefixPos + 1][..prefixPos] == prefix[..prefixPos];
      assert ScoreWords(b, n, st0, prefix[..prefixPos + 1]) == ScoreWord(b, n, before, prefix[prefixPos]);
      lmState', prefixScore', finalizedScore', wordPos' :=
        ScoreOneWord(b, contextFactor, prefix[prefixPos], lmState', prefixScore', finalizedScore', wordPos');
      prefixPos := prefixPos + 1;
    }
    assert prefixPos == Min(n - 1, subPhraseLength);
  }

  // ---------------------------------------------------------------------
  // Properties of the walk

  /** Scoring `ws` in turn pushes all of them, advances the word count by
      their number, and files each score by that count: all of them stay in
      the prefix part while the count stays below N, and all go to the
      finalized part once the count has reached N-1. */
  lemma {:induction false} ScoreWordsFacts<S>(b: Backend<S>, n: nat, st: ChartWalk<S>, ws: seq<Word>)
    requires n >= 1 && |st.window| <= n
    ensures var r := ScoreWords(b, n, st, ws);
      r.wordPos == st.wordPos + |ws| &&
      r.window == PushAll(st.window, ws, n) &&
      (st.wordPos + |ws| < n ==> r.scores.finalized == st.scores.finalized) &&
      (st.wordPos + 1 >= n ==> r.scores.prefix == st.scores.prefix)
    decreases |ws|
  {
    if ws != [] {
      ScoreWordsFacts(b, n, st, ws[..|ws| - 1]);
    }
  }

  /** A leading slot brings exactly the child's score, split as the child
      split it, and its right-context state; the window holds the last
      `min(N-1, |suffix|)` words of the child's suffix, which are counted and
      not scored. */
  lemma LeadingSlotCopiesChild<S>(b: Backend<S>, n: nat, h: ChartHypothesis<S>)
    requires WellFormedRule(h, n) && |h.targetPhrase| > 0 && h.targetPhrase[0].IsNonTerminal()
    ensures var c, r := ChildAt(h, n, 0), ChartWalkOf(b, n, h, 1);
      r.scores.prefix == c.prefixScore &&
      r.scores.prefix + r.scores.finalized == c.fullScore &&
      r.lmState == c.rightContext &&
      r.window == LastWords(c.suffix, n - 1) &&
      r.wordPos == Min(n - 1, |c.suffix|)
  {
    var c := ChildAt(h, n, 0);
    var pushed := LeadingSuffix(c, n);
    assert pushed == LastWords(c.suffix, n - 1);
    PushAllFromEmpty(pushed, n);
    assert LastWords(pushed, n) == pushed;
  }

  /** An interior slot scores exactly `min(N-1, numTerminals)` words of the
      child's prefix, in the context of what precedes the slot. A short
      child leaves everything else as that scoring left it. A long child
      also adds its settled score (full minus prefix) to the finalized part,
      hands over its state, pushes `min(numTerminals-(N-1), N-1)` suffix
      words unscored, and leaves the word count at N or more. */
  lemma InteriorStepFacts<S>(b: Backend<S>, n: nat, c: ChildHypothesis<S>, st: ChartWalk<S>)
    requires n >= 1 && |st.window| <= n && InteriorChildFits(c, n)
    ensures var r, k := InteriorStep(b, n, c, st), Min(n - 1, c.numTerminals);
      var s1 := ScoreWords(b, n, st, c.prefix[..k]);
      s1.wordPos == st.wordPos + k &&
      (c.numTerminals <= n - 1 ==>
         r == s1 && r.window == LastWords(st.window + c.prefix[..k], n)) &&
      (c.numTerminals > n - 1 ==>
         r.scores.prefix == s1.scores.prefix &&
         r.scores.finalized == s1.scores.finalized + (c.fullScore - c.prefixScore) &&
         r.lmState == c.rightContext &&
         r.window == LastWords(st.window + c.prefix[..k] + c.suffix[|c.suffix| - RemainingWords(c.numTerminals, n)..], n) &&
         r.wordPos == st.wordPos + k + c.numTerminals && r.wordPos >= n)
  {
    var k := Min(n - 1, c.numTerminals);
    ScoreWordsFacts(b, n, st, c.prefix[..k]);
    PushAllAny(st.window, c.prefix[..k], n);
    if c.numTerminals > n - 1 {
      var pushed := c.suffix[|c.suffix| - RemainingWords(c.numTerminals, n)..];
      PushAllLast(st.window + c.prefix[..k], pushed, n);
    }
  }

  /** The non-terminal at an interior rule position is handled as above. */
  lemma InteriorSlotIsInteriorStep<S>(b: Backend<S>, n: nat, h: ChartHypothesis<S>, p: nat)
    requires WellFormedRule(h, n) && 0 < p < |h.targetPhrase| && h.targetPhrase[p].IsNonTerminal()
    ensures InteriorChildFits(ChildAt(h, n, p), n)
    ensures ChartWalkOf(b, n, h, p + 1) == InteriorStep(b, n, ChildAt(h, n, p), ChartWalkOf(b, n, h, p))
  {
  }

  /** Once the word count has reached N-1 after the first rule position,
      the prefix score is final: the next step, a terminal or an interior
      slot, files everything it scores as finalized and keeps the count at
      least as high, so the same holds at every later position. In
      particular the extra count a long interior child adds changes no
      later classification. */
  lemma SettledStep<S>(b: Backend<S>, n: nat, h: ChartHypothesis<S>, p: nat)
    requires WellFormedRule(h, n) && 0 < p < |h.targetPhrase| && ChartWalkOf(b, n, h, p).wordPos >= n - 1
    ensures ChartWalkOf(b, n, h, p + 1).scores.prefix == ChartWalkOf(b, n, h, p).scores.prefix
    ensures ChartWalkOf(b, n, h, p + 1).wordPos >= ChartWalkOf(b, n, h, p).wordPos
  {
    var st := ChartWalkOf(b, n, h, p);
    if h.targetPhrase[p].IsNonTerminal() {
      var c := ChildAt(h, n, p);
      ScoreWordsFacts(b, n, st, c.prefix[..Min(n - 1, c.numTerminals)]);
    }
  }

  /** The scale conversion is the identity. */
  ghost predicate IsIdentity(f: real -> real)
  {
    forall x :: f(x) == x
  }

  /** What the chart walk and the `CalcScoreChart` walk share after `k`
      terminals: the window, which holds `min(k, N)` words, the state and the
      total; with `exact` (no leading `<s>`) also the word count and the
      split itself. */
  ghost predicate WalksAgree<S>(c: ChartWalk<S>, f: SplitScan<S>, k: nat, n: nat, exact: bool)
  {
    c.window == f.window && c.lmState == f.state && |c.window| == Min(k, n) &&
    c.scores.prefix + c.scores.finalized == f.beginningBitsOnly + f.ngramScore &&
    (exact ==> c.wordPos == k && c.scores.prefix == f.beginningBitsOnly && c.scores.finalized == f.ngramScore)
  }

  /** Both walks score a further terminal (other than `<s>`) alike. */
  lemma AgreeAfterWord<S>(b: Backend<S>, n: nat, c: ChartWalk<S>, f: SplitScan<S>, w: Word, k: nat, exact: bool)
    requires n >= 1 && |c.window| <= n && IsIdentity(b.untransform)
    requires WalksAgree(c, f, k, n, exact) && !w.IsNonTerminal() && w != SentenceStart
    ensures WalksAgree(ScoreWord(b, n, c, w), SplitStep(b, n, w, f), k + 1, n, exact)
  {
  }

  /** After the first terminal both walks agree (the chart walk switches to
      the sentence-start state at `<s>`, the other starts from it). */
  lemma AgreeAtFirst<S>(b: Backend<S>, n: nat, h: ChartHypothesis<S>)
    requires WellFormedRule(h, n) && NoNonTerminals(h.targetPhrase) && IsIdentity(b.untransform)
    requires 0 < |h.targetPhrase|
    ensures WalksAgree(ChartWalkOf(b, n, h, 1), SplitScanOf(b, n, h.targetPhrase, 1), 1, n,
                       h.targetPhrase[0] != SentenceStart)
  {
    assert !h.targetPhrase[0].IsNonTerminal();
    assert SplitScanOf(b, n, h.targetPhrase, 0) == SplitScan([], SeedState(b, h.targetPhrase), 0.0, 0.0);
  }

  /** On a rule without non-terminals (and with the score conversion the
      identity) the chart walk and the `CalcScoreChart` walk see the same
      windows and states and collect the same total; without a leading
      `<s>` they split it the same way too. */
  lemma {:induction false} ChartWalkMatchesSplitScan<S>(b: Backend<S>, n: nat, h: ChartHypothesis<S>, k: nat)
    requires WellFormedRule(h, n) && NoNonTerminals(h.targetPhrase) && IsIdentity(b.untransform)
    requires 0 < k <= |h.targetPhrase|
    ensures WalksAgree(ChartWalkOf(b, n, h, k), SplitScanOf(b, n, h.targetPhrase, k), k, n,
                       h.targetPhrase[0] != SentenceStart)
    decreases k
  {
    var tp := h.targetPhrase;
    if k == 1 {
      AgreeAtFirst(b, n, h);
    } else {
      var w := tp[k - 1];
      assert !w.IsNonTerminal();
      ChartWalkMatchesSplitScan(b, n, h, k - 1);
      var c, f := ChartWalkOf(b, n, h, k - 1), SplitScanOf(b, n, tp, k - 1);
      assert w != SentenceStart;
      assert ChartWalkOf(b, n, h, k) == ScoreWord(b, n, c, w);
      assert SplitScanOf(b, n, tp, k) == SplitStep(b, n, w, f);
      AgreeAfterWord(b, n, c, f, w, k - 1, tp[0] != SentenceStart);
    }
  }

  /** The score `EvaluateChart` assigns to an all-terminal rule is the sum of
      the two parts `CalcScoreChart` computes for the same phrase, and so
      `CalcScore`'s full score; without a leading `<s>` the prefix score is
      exactly `beginningBitsOnly`. */
  lemma EvaluateChartMatchesCalcScoreChart<S>(b: Backend<S>, n: nat, h: ChartHypothesis<S>)
    requires WellFormedRule(h, n) && NoNonTerminals(h.targetPhrase) && IsIdentity(b.untransform)
    ensures var c, f := ChartWalkOf(b, n, h, |h.targetPhrase|), CalcScoreChartOf(b, n, h.targetPhrase);
      c.scores.prefix + c.scores.finalized == f.0 + f.1 &&
      c.scores.prefix + c.scores.finalized == CalcScoreOf(b, n, h.targetPhrase).0 &&
      (|h.targetPhrase| > 0 && h.targetPhrase[0] != SentenceStart ==> c.scores.prefix == f.0)
  {
    CalcScoreChartSplitsCalcScore(b, n, h.targetPhrase);
    if |h.targetPhrase| > 0 {
      ChartWalkMatchesSplitScan(b, n, h, |h.targetPhrase|);
      assert WalksAgree(ChartWalkOf(b, n, h, |h.targetPhrase|), SplitScanOf(b, n, h.targetPhrase, |h.targetPhrase|),
                        |h.targetPhrase|, n, h.targetPhrase[0] != SentenceStart);
    }
  }
}
