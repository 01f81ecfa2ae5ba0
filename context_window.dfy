/** The sliding context window of `LanguageModel::ShiftOrPush`: an ordered
    sequence of at most `order` words. Below capacity a push appends; at
    capacity the oldest word is dropped and the new one goes last. */
module ContextWindows {
  import opened LMTypes

  /** The window, as a value, after pushing `w` into `window` of capacity `n`. */
  ghost function Push(window: seq<Word>, w: Word, n: nat): (r: seq<Word>)
    requires n >= 1 && |window| <= n
    ensures |r| == Min(|window| + 1, n)
  {
    if |window| < n then window + [w] else window[1..] + [w]
  }

  /** A push leaves the pushed word last; below capacity it keeps the whole
      old window in front of it, at capacity the old window without its
      oldest word. */
  lemma PushShape(window: seq<Word>, w: Word, n: nat)
    requires n >= 1 && |window| <= n
    ensures var r := Push(window, w, n);
      r[|r| - 1] == w &&
      (|window| < n ==> r[..|window|] == window) &&
      (|window| == n ==> r[..n - 1] == window[1..])
  {
  }

  /** The window after pushing every word of `ws`, first to last. */
  ghost function PushAll(window: seq<Word>, ws: seq<Word>, n: nat): (r: seq<Word>)
    requires n >= 1 && |window| <= n
    ensures |r| <= n
    decreases |ws|
  {
    if ws == [] then window
    else Push(PushAll(window, ws[..|ws| - 1], n), ws[|ws| - 1], n)
  }

  /** The last `min(n, |ws|)` words of `ws`, in order. */
  ghost function LastWords(ws: seq<Word>, n: nat): seq<Word>
  {
    ws[|ws| - Min(n, |ws|)..]
  }

  /** One push keeps the window equal to the last `n` words seen. */
  lemma PushLast(a: seq<Word>, w: Word, n: nat)
    requires n >= 1
    ensures Push(LastWords(a, n), w, n) == LastWords(a + [w], n)
  {
    var aw := a + [w];
    if |a| < n {
      assert LastWords(a, n) == a;
      assert LastWords(aw, n) == aw;
    } else {
      assert LastWords(a, n)[1..] == a[|a| - n + 1..];
      assert LastWords(aw, n) == a[|a| - n + 1..] + [w];
    }
  }

  /** Pushing `ws` into a window that holds the last words of `a` leaves the
      last words of `a + ws`. */
  lemma {:induction false} PushAllLast(a: seq<Word>, ws: seq<Word>, n: nat)
    requires n >= 1
    ensures PushAll(LastWords(a, n), ws, n) == LastWords(a + ws, n)
    decreases |ws|
  {
    if ws == [] {
      assert a + ws == a;
    } else {
      var init, x := ws[..|ws| - 1], ws[|ws| - 1];
      calc {
        PushAll(LastWords(a, n), ws, n);
        Push(PushAll(LastWords(a, n), init, n), x, n);
        { PushAllLast(a, init, n); }
        Push(LastWords(a + init, n), x, n);
        { PushLast(a + init, x, n); }
        LastWords(a + init + [x], n);
        { assert a + init + [x] == a + ws; }
        LastWords(a + ws, n);
      }
    }
  }

  /** The window invariant: after k pushes into an empty window it holds
      exactly the last min(n, k) pushed words, in order. */
  lemma PushAllFromEmpty(ws: seq<Word>, n: nat)
    requires n >= 1
    ensures PushAll([], ws, n) == LastWords(ws, n)
    ensures |PushAll([], ws, n)| == Min(n, |ws|)
  {
    assert LastWords([], n) == [];
    PushAllLast([], ws, n);
    assert [] + ws == ws;
  }

  /** Pushing into any window that is within capacity: the window is the
      tail of the old window followed by the pushed words. */
  lemma PushAllAny(window: seq<Word>, ws: seq<Word>, n: nat)
    requires n >= 1 && |window| <= n
    ensures PushAll(window, ws, n) == LastWords(window + ws, n)
  {
    assert LastWords(window, n) == window;
    PushAllLast(window, ws, n);
  }

  /** Shift the whole of `a` one place towards the front, dropping `a[0]`,
      and put `w` in the last slot (the shift loop of `ShiftOrPush`, which
      `Evaluate` repeats on its fixed window). */
  method SlideIn(a: array<Word>, w: Word)
    requires a.Length >= 1
    modifies a
    ensures a[..] == old(a[..])[1..] + [w]
  {
    var i := 0;
    while i < a.Length - 1
      invariant 0 <= i <= a.Length - 1
      invariant forall k :: 0 <= k < i ==> a[k] == old(a[k + 1])
      invariant forall k :: i <= k < a.Length ==> a[k] == old(a[k])
    {
      a[i] := a[i + 1];
      i := i + 1;
    }
    a[a.Length - 1] := w;
  }

  /** The `vector<const Word*>` context of the scorers, reserved to the
      model order: `buf[..len]` is the window. */
  class ContextWindow {
    const order: nat
    const buf: array<Word>
    var len: nat

    ghost predicate Valid()
      reads this
    {
      buf.Length == order && len <= order
    }

    /** The words currently in the window, oldest first. */
    function Words(): seq<Word>
      reads this, buf
      requires Valid()
    {
      buf[..len]
    }

    constructor (order: nat)
      ensures Valid() && this.order == order && fresh(buf)
      ensures Words() == []
    {
      this.order := order;
      buf := new Word[order];
      len := 0;
    }

    /** `contextFactor.clear()`. */
    method Clear()
      requires Valid()
      modifies this
      ensures Valid() && Words() == []
    {
      len := 0;
    }

    /** `LanguageModel::ShiftOrPush`. */
    method ShiftOrPush(w: Word)
      requires Valid() && order >= 1
      modifies this, buf
      ensures Valid()
      ensures Words() == Push(old(Words()), w, order)
    {
      if len < order {
        buf[len] := w;
        len := len + 1;
        assert Words() == old(Words()) + [w];
      } else {
        assert Words() == buf[..];
        SlideIn(buf, w);
      }
    }
  }
}
