# Incremental n-gram language-model scoring (Moses `LanguageModel`)

This project is a Dafny model of the scoring core of Moses'
`LanguageModel` feature function. It covers four parts:

- **The context window** `ShiftOrPush`. It holds at most N word
  references. Below capacity a push appends; at capacity the oldest word
  is shifted out.
- **The flat phrase scorers** `CalcScore` and `CalcScoreChart`. Both walk a
  phrase left to right and score every terminal except a leading `<s>`.
  - `CalcScore` returns the full score and the part scored with a window
    of exactly N words. A non-terminal resets the context.
  - `CalcScoreChart` splits the same scores into the short-window part
    (`beginningBitsOnly`) and the n-gram part.
- **The phrase-based boundary scorer** `Evaluate`. It scores only the
  n-grams that cross the boundary of the phrase just added:
  - the first window, padded with `<s>`;
  - at most N-2 further words;
  - the `</s>` n-gram once the source is covered. Otherwise the words that
    remain are slid in without scoring, only to advance the state.
- **The chart scorer** `EvaluateChart` with `updateChartScore`. It walks a
  rule's target side, in which non-terminal slots are filled by child
  hypotheses, and keeps a word count.
  - Each score goes to the prefix part while the count is below N, and
    to the finalized part after that.
  - A leading slot copies the child's two parts.
  - An interior slot re-scores up to N-1 of the child's first words. A
    child longer than N-1 also brings its settled score, its state and
    (unscored) its last words.

The backend (`LanguageModelImplementation`) is foreign code. It is a
parameter: a value of type `Backend<S>` whose fields are functions over an
abstract state type `S`.
- `valueGivenState` and `valueForgotState` return a score and the advanced
  state.
- `getState` returns only the advanced state.
- It also holds the two seed states, the state `NewState(NULL)` yields,
  and `UntransformLMScore`.

Every scorer is a method with the source's loops, over the source's
mutable data:
- `ContextWindow` is a class over an array with a length. It models the
  `vector<const Word*>` reserved to N.
- `Evaluate` keeps the fixed N-slot array and shifts it in place.

Each method is proved against a ghost "walk" function that states in one
step what each loop iteration does, and the lemmas characterise those
walks independently:
- the window after k pushes is the last min(N, k) words;
- the window of `CalcScore` never reaches back across a non-terminal;
- `fullScore` and `ngramScore` are sums over exactly the words described;
- `CalcScoreChart` partitions `CalcScore`'s full score;
- the classification and the slot handling of `EvaluateChart`;
- on an all-terminal rule, `EvaluateChart` agrees with `CalcScoreChart`.

Files:
- `lm_types.dfy`: words, the backend interface, `Min`.
- `context_window.dfy`: `ShiftOrPush` and the window lemmas.
- `flat_scoring.dfy`: `CalcScore` and `CalcScoreChart`.
- `phrase_scoring.dfy`: `Evaluate`.
- `chart_scoring.dfy`: `EvaluateChart` and `updateChartScore`.

When a rule starts with `<s>`, `EvaluateChart` and `CalcScoreChart` split
the same total differently.
- `CalcScoreChart` classifies by window length, and `<s>` occupies a slot
  of the window.
- `EvaluateChart` classifies by the word count, and `<s>` is not counted.

`EvaluateChartMatchesCalcScoreChart` therefore states the equal split only
for rules without a leading `<s>`, and only the equal total otherwise.

## Model

The ghost walk definitions have no rows of their own: `CalcStep`,
`CalcScoreOf`, `SplitStep`, `CalcScoreChartOf`, `PaddedWindow`,
`ScoreThrough`, `EndOfSentenceWindow`, `BoundaryScore` and `EvaluateOf`.
Each one is tied to its source lines through the rows of the methods and
lemmas whose ensures name it.

| member | source | states |
|---|---|---|
| ContextWindows.Push | moses/src/LanguageModel.cpp:178-189 | a push leaves a window of length min(old length + 1, N) |
| ContextWindows.PushShape | moses/src/LanguageModel.cpp:178-189 | the pushed word is last; below capacity the old window is kept in front of it; at capacity the old words 1..N-1 are, in order |
| ContextWindows.PushAll | moses/src/LanguageModel.cpp:178-189 | any sequence of pushes keeps the window within N words |
| ContextWindows.PushLast | moses/src/LanguageModel.cpp:178-189 | one push turns "the last N words of a" into "the last N words of a + [w]" |
| ContextWindows.PushAllLast | moses/src/LanguageModel.cpp:178-189 | pushing ws into the last N words of a gives the last N words of a + ws |
| ContextWindows.PushAllFromEmpty | moses/src/LanguageModel.cpp:178-189 | after k pushes from empty the window is exactly the last min(N, k) pushed words, in order |
| ContextWindows.PushAllAny | moses/src/LanguageModel.cpp:178-189 | pushing into any window within capacity leaves the last N words of the old window followed by the pushed words |
| ContextWindows.SlideIn | moses/src/LanguageModel.cpp:184-187 | the shift loop moves every slot one place towards the front, dropping slot 0, and stores the new word last |
| ContextWindows.ContextWindow.constructor | moses/src/LanguageModel.cpp:96-97 | a fresh window of capacity N is empty |
| ContextWindows.ContextWindow.Clear | moses/src/LanguageModel.cpp:109 | clearing empties the window |
| ContextWindows.ContextWindow.ShiftOrPush | moses/src/LanguageModel.cpp:178-189 | for N >= 1 the window afterwards is Push(old window, w, N): appended below capacity, shifted at capacity |
| FlatScoring.LeadingStartSeeds | moses/src/LanguageModel.cpp:98-99 | in both flat scorers a leading `<s>` is pushed, adds nothing to either score, and leaves the sentence-start state for the next word |
| FlatScoring.CalcScan | moses/src/LanguageModel.cpp:112-113 | the window of `CalcScore` never exceeds N (the assertion after the push) |
| FlatScoring.CalcScore | moses/src/LanguageModel.cpp:85-128 | an empty phrase gives 0 and 0; otherwise the result is what the walk from the seed state (`<s>` state or null context) computes |
| FlatScoring.CalcScoreWord | moses/src/LanguageModel.cpp:102-124 | one iteration: a non-terminal clears a non-empty window and reseeds the null context; `<s>` (only at position 0) is pushed unscored; any other terminal is pushed, scored, added to the full score and, with a window of N, to the n-gram score |
| FlatScoring.SegmentStart | moses/src/LanguageModel.cpp:104-110 | the run of terminals ending at k starts right after the last non-terminal before k, or at 0 |
| FlatScoring.CalcScanWindow | moses/src/LanguageModel.cpp:104-112 | the window after k words is the last N words of the current run of terminals; right after a non-terminal the state is the null-context seed |
| FlatScoring.CalcWindowAfterNonTerminal | moses/src/LanguageModel.cpp:104-110 | after a non-terminal the window is empty and the state is the null-context seed, whether or not the window was already empty |
| FlatScoring.CalcWindowAfterTerminal | moses/src/LanguageModel.cpp:112 | pushing a terminal extends the window over the run of terminals by that word |
| FlatScoring.NonTerminalResets | moses/src/LanguageModel.cpp:104-110 | after a non-terminal at j no word at or before j is in any later window, which is always a contiguous stretch ending at the current word; right after j the window is empty and the state reseeded |
| FlatScoring.CalcScanSums | moses/src/LanguageModel.cpp:112-123 | after k words `fullScore` is the sum over every scored word and `ngramScore` the sum over exactly those scored with at least N-1 terminals before them in their run |
| FlatScoring.CalcSumsAfterScoredWord | moses/src/LanguageModel.cpp:119-122 | a scored word adds its backend score to the full score, and to the n-gram score exactly when its window is full |
| FlatScoring.CalcScoreSums | moses/src/LanguageModel.cpp:85-128 | `CalcScore`'s result is that pair of sums over the whole phrase |
| FlatScoring.NonTerminalsScoreZero | moses/src/LanguageModel.cpp:104-110 | on a phrase of non-terminals only, both accumulators stay 0 at every position |
| FlatScoring.NonTerminalPhraseScoresZero | moses/src/LanguageModel.cpp:90-110 | a phrase of non-terminals only (or an empty phrase) scores 0 and 0 |
| FlatScoring.SplitScanOf | moses/src/LanguageModel.cpp:157-158 | the window of `CalcScoreChart` never exceeds N |
| FlatScoring.CalcScoreChart | moses/src/LanguageModel.cpp:130-176 | the result is what the walk over a phrase without non-terminals computes (0 and 0 for an empty one) |
| FlatScoring.CalcScoreChartWord | moses/src/LanguageModel.cpp:154-174 | one iteration: `<s>` (only at position 0) is pushed unscored; any other word is pushed and scored, and its score goes to `ngramScore` with a full window, else to `beginningBitsOnly` |
| FlatScoring.ScansAgreeAfterTerminal | moses/src/LanguageModel.cpp:157-173 | both flat walks treat a terminal alike: same window and state, and the chart split still partitions the full score |
| FlatScoring.SplitScanMatchesCalcScan | moses/src/LanguageModel.cpp:155-174 | on a phrase without non-terminals both walks see the same windows and states; each score lands in exactly one part, the parts add up to `fullScore` and the n-gram parts are equal |
| FlatScoring.CalcScoreChartSplitsCalcScore | moses/src/LanguageModel.cpp:130-176 | `beginningBitsOnly + ngramScore` equals `CalcScore`'s `fullScore`, and the two `ngramScore`s are equal |
| PhraseScoring.Evaluate | moses/src/LanguageModel.cpp:197-281 | N <= 1 gives NULL and adds nothing; an empty phrase returns the predecessor state and adds nothing; otherwise a state is returned, and state and added score are the boundary n-grams followed by the `</s>` n-gram (source complete) or by the state advanced over the rest of the phrase |
| PhraseScoring.LastScoredPos | moses/src/LanguageModel.cpp:237-238 | the main loop's last position lies between startPos and currEndPos, and exactly min(N-2, currEndPos-startPos) words follow the first n-gram; it stops before currEndPos only after N-2 of them |
| PhraseScoring.ScoreAcrossBoundary | moses/src/LanguageModel.cpp:233-248 | the first n-gram is scored with the predecessor state (or forgetting it when there is none); then the windows ending at startPos+1 .. min(startPos+N-2, currEndPos) are scored in turn, and the N-slot window ends at the last of them |
| PhraseScoring.ScoreNextWord | moses/src/LanguageModel.cpp:239-248 | one iteration of the main loop moves the window one position on and adds that window's score |
| PhraseScoring.FillPadded | moses/src/LanguageModel.cpp:224-232 | the first window holds positions startPos-N+1 .. startPos, with `<s>` at negative positions |
| PhraseScoring.FillEndOfSentence | moses/src/LanguageModel.cpp:251-261 | the end-of-sentence window is the N-1 slots taken from the end of the hypothesis (`<s>` at negative positions), then `</s>` |
| PhraseScoring.SlideThrough | moses/src/LanguageModel.cpp:266-272 | sliding the words endPos+1 .. currEndPos in unscored leaves the window ending at currEndPos |
| PhraseScoring.SlideIntoPadded | moses/src/LanguageModel.cpp:240-245 | shifting the next word into a padded window gives the padded window one position further on |
| PhraseScoring.PaddedWindowShape | moses/src/LanguageModel.cpp:224-232 | a padded window has exactly N words: the last min(N, end+1) words up to end, preceded by as many `<s>` as are missing |
| PhraseScoring.PaddedDropFirst | moses/src/LanguageModel.cpp:255-261 | dropping the oldest slot of a padded window of N gives the padded window of N-1 |
| PhraseScoring.EndOfSentenceShape | moses/src/LanguageModel.cpp:251-262 | the `</s>` n-gram is the last N-1 hypothesis words, padded in front with `<s>` when the hypothesis is shorter, then `</s>` |
| ChartScoring.RemainingWords | moses/src/LanguageModel.cpp:391-395 | a long interior child pushes its words past the first N-1, clamped to N-1: the result is the smaller of the two |
| ChartScoring.LeadingSuffix | moses/src/LanguageModel.cpp:352-353 | the clamped start index makes a leading slot push exactly the last min(N-1, suffix length) suffix words |
| ChartScoring.ChildAt | moses/src/LanguageModel.cpp:334-336 | the child of an interior slot has the prefix and suffix words the slot reads |
| ChartScoring.UpdateChartScore | moses/src/LanguageModel.cpp:416-423 | exactly one accumulator changes and the total grows by the score: the prefix part when the count is below N, the finalized part otherwise |
| ChartScoring.ScoreWord | moses/src/LanguageModel.cpp:326 | scoring a word keeps the window within N |
| ChartScoring.ScoreWords | moses/src/LanguageModel.cpp:366-374 | scoring a run of words keeps the window within N |
| ChartScoring.LeadingStep | moses/src/LanguageModel.cpp:339-360 | a leading slot keeps the window within N |
| ChartScoring.InteriorStep | moses/src/LanguageModel.cpp:363-404 | an interior slot keeps the window within N |
| ChartScoring.ChartStep | moses/src/LanguageModel.cpp:308-406 | one rule position keeps the window within N |
| ChartScoring.ChartWalkOf | moses/src/LanguageModel.cpp:304-406 | the window never exceeds N anywhere in the rule |
| ChartScoring.EvaluateChart | moses/src/LanguageModel.cpp:283-414 | the assigned score is prefixScore + finalizedScore after the whole rule, and the returned state holds that prefix score and the last backend state |
| ChartScoring.ScorePosition | moses/src/LanguageModel.cpp:308-406 | one rule position advances the locals from the walk after p positions to the walk after p+1 |
| ChartScoring.ScoreOneWord | moses/src/LanguageModel.cpp:371-373 | a terminal of the rule or of a child's prefix is pushed, scored with the current state, and filed under the incremented word count |
| ChartScoring.LeadingSlot | moses/src/LanguageModel.cpp:339-360 | a leading slot copies the child's prefix score, its full score minus that, and its right context; it pushes the clamped suffix and counts each pushed word |
| ChartScoring.InteriorSlot | moses/src/LanguageModel.cpp:363-404 | an interior slot re-scores the clamped prefix; a long child then adds its settled score, hands over its state, pushes the clamped suffix and adds its terminal count to the word count |
| ChartScoring.PushSuffix | moses/src/LanguageModel.cpp:396-401 | the suffix loop pushes suffix[from..] in order, scoring nothing |
| ChartScoring.ScoreChildPrefix | moses/src/LanguageModel.cpp:366-374 | the prefix loop scores exactly the first min(N-1, childLen) words of the child's prefix, one by one |
| ChartScoring.ScoreWordsFacts | moses/src/LanguageModel.cpp:366-374 | scoring ws pushes them all and adds one to the word count per word; all scores stay in the prefix part while the count stays below N, and all go to the finalized part once it has reached N-1 |
| ChartScoring.LeadingSlotCopiesChild | moses/src/LanguageModel.cpp:339-360 | after a leading slot the prefix part is the child's prefix score, the total is the child's full score, the state is the child's right context, the window is the last N-1 suffix words (none scored) and the word count is their number |
| ChartScoring.InteriorStepFacts | moses/src/LanguageModel.cpp:363-404 | an interior slot scores exactly min(N-1, childLen) prefix words; only a child longer than N-1 adds full minus prefix to the finalized part, brings its right context and pushes min(childLen-(N-1), N-1) suffix words unscored, leaving the word count at N or more |
| ChartScoring.InteriorSlotIsInteriorStep | moses/src/LanguageModel.cpp:362-404 | every interior non-terminal position is handled as an interior slot, and its child fits it |
| ChartScoring.SettledStep | moses/src/LanguageModel.cpp:402 | once the word count has reached N-1 past position 0, the next position leaves the prefix part unchanged and does not lower the count, so the extra count of a long child changes no classification |
| ChartScoring.AgreeAfterWord | moses/src/LanguageModel.cpp:324-327 | the chart walk and the `CalcScoreChart` walk score a further terminal alike, with the score conversion the identity |
| ChartScoring.AgreeAtFirst | moses/src/LanguageModel.cpp:316-322 | after the first terminal both walks have the same window and state (`<s>` switches to, or seeds, the sentence-start state), with the score conversion the identity |
| ChartScoring.ChartWalkMatchesSplitScan | moses/src/LanguageModel.cpp:304-328 | on a rule without non-terminals both walks see the same windows and states and collect the same total; without a leading `<s>` they also split it the same way |
| ChartScoring.EvaluateChartMatchesCalcScoreChart | moses/src/LanguageModel.cpp:296-297 | on an all-terminal rule the score `EvaluateChart` assigns equals `CalcScoreChart`'s two parts summed, and so `CalcScore`'s full score; without a leading `<s>` the prefix score is exactly `beginningBitsOnly` |

## Left out

- The constructors and the destructor, with their reference counting
  on the shared backend under `WITH_THREADS`: this is ownership and
  concurrency. Each `delete lmState; lmState = NewState(...)` pair is the
  replacement of a state value.
- `GetWeight` is left out: it is a lookup in the global decoder
  configuration.
- `EmptyHypothesisState` is left out: it is one backend call, outside the
  scorers.
- The timing and verbose statistics of `Evaluate` are left out: they use
  the clock and I/O.
- The backend is given as parameters: its state objects, the two seeds,
  `GetValueGivenState`, `GetValueForgotState`, `GetState`, `NewState(NULL)`
  and `UntransformLMScore`. It mutates the state object in place; the
  model returns the advanced state instead.
- `NewState(ps)`, which copies a state, is modelled as using the same
  state value. Copying a NULL predecessor gives `blankState`.
- Scores are `real`, not `float`. Float addition rounds and is not
  associative, so the sum properties hold for the ideal arithmetic only.
- `dynamic_cast` to `LanguageModelChartState` is left out: a child is a
  record that carries its prefix score, full score, right context, prefix
  and suffix words and terminal count.
- `ScoreComponentCollection` is left out: `out->PlusEquals` and
  `out->Assign` become the returned score.
- Sizes and positions are mathematical integers. The source relies on
  unsigned wrap-around being converted back to a negative `int` in two
  places, and both become explicit comparisons with 0: the
  end-of-sentence window (`(int)(size - N + i + 1)`, line 256) and the
  clamp of a leading slot's suffix (line 352). The first window of
  `Evaluate` already computes with signed `int`s (line 226).
- N >= 1 is a precondition wherever `ShiftOrPush` can be reached. With
  N = 0 the source's shift loop bound `GetNGramOrder() - 1` underflows.
- Interior children are assumed to carry enough prefix and suffix words
  (`InteriorChildFits`); a real child carries min(N-1, numTerminals) of
  each.
  - Prefix: with fewer words the read at line 371 goes past the end.
  - Suffix: with fewer than `remainingWords` words the start index at
    line 396 wraps around as a `size_t`. The loop then pushes no suffix
    word at all; the model does not cover that case.
- The source's `assert`s become preconditions: `<s>` only at position 0,
  and no non-terminal in `CalcScoreChart`.
- `contrib/other-builds/extract-mixed-syntax/Main.cpp` is not part of
  this model: it is a command-line and file driver.
- `moses/src/ChartTranslationOption.h` is not part of this model: its
  only computation, `CalcEstimateOfBestScore`, has no body in the source.
- The word count follows the code's own rule:
  - A rule terminal other than `<s>` adds one (line 326).
  - A leading slot adds the number of suffix words pushed (line 358).
  - A short interior child adds its re-scored words (line 373).
  - A long interior child adds N-1 for the re-scored words (line 373)
    and then its whole terminal count (line 402).
- SettledStep: states one rule position at a time that a settled word
  count keeps the prefix part fixed. The consequence for all later
  positions together is not stated as a single lemma.
- ChartWalkMatchesSplitScan and EvaluateChartMatchesCalcScoreChart:
  these hold only when `UntransformLMScore` is the identity, because
  `CalcScoreChart` does not convert scores. With a leading `<s>` only the
  totals agree; the reason is given above.
- EvaluateChart: its contract ties the result to the walk. The
  classification and slot facts are lemmas about that walk (ScoreWordsFacts,
  LeadingSlotCopiesChild, InteriorStepFacts, SettledStep), not clauses of
  the method.
