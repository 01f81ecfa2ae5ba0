/** Vocabulary shared by every part of the language-model scoring core:
    words, the optional state returned by the phrase-based scorer, and the
    interface of the n-gram backend, which is foreign code and is therefore
    a parameter of every scorer. */
module LMTypes {

  /** A target-side token. `SentenceStart` and `SentenceEnd` are the
      designated `<s>` and `</s>` symbols; only `NonTerminal` is a
      non-terminal slot of a rule. */
  datatype Word = Terminal(id: nat) | NonTerminal(id: nat) | SentenceStart | SentenceEnd {
    predicate IsNonTerminal() { NonTerminal? }
  }

  /** A state pointer that may be NULL. */
  datatype Option<T> = None | Some(value: T)

  /** A backend answer: a log-score and the state advanced by one word. */
  datatype Scored<S> = Scored(score: real, state: S)

  /** The n-gram backend, abstracted as pure functions over an opaque state
      type `S`:
      - `valueGivenState` / `valueForgotState` score the last word of a
        context window and return the advanced state;
      - `getState` only advances the state;
      - `beginSentenceState` and `nullContextState` are the two seeds;
      - `blankState` is what the backend yields when asked to copy a NULL
        state;
      - `untransform` is the conversion applied to scores by the chart
        scorer. */
  datatype Backend<!S> = Backend(
    valueGivenState: (seq<Word>, S) -> Scored<S>,
    valueForgotState: (seq<Word>, S) -> Scored<S>,
    getState: (seq<Word>, S) -> S,
    beginSentenceState: S,
    nullContextState: S,
    blankState: S,
    untransform: real -> real)

  function Min(a: int, b: int): int
  {
    if a <= b then a else b
  }
}
