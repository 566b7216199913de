/**
 * The hubs' bounded message history: a sliding window over everything
 * broadcast so far that keeps at most `bufSize` entries and drops the
 * oldest first.
 */
module History {

  function Min(a: int, b: int): int {
    if a < b then a else b
  }

  /**
   * The history after trimming `h` the way `Broadcast` does: when it holds
   * more than `bufSize` entries only the newest `bufSize` are kept.
   */
  function Window<T>(h: seq<T>, bufSize: nat): (w: seq<T>)
    ensures |w| == Min(|h|, bufSize)
    ensures w == h[|h| - |w|..]
  {
    if |h| > bufSize then h[|h| - bufSize..] else h
  }

  /** Trimming after each append is the same as trimming once at the end. */
  lemma WindowAppend<T>(h: seq<T>, x: T, bufSize: nat)
    ensures Window(Window(h, bufSize) + [x], bufSize) == Window(h + [x], bufSize)
  {
    var w := Window(h, bufSize);
    var lhs := Window(w + [x], bufSize);
    var rhs := Window(h + [x], bufSize);
    assert |lhs| == |rhs|;
    forall i | 0 <= i < |lhs|
      ensures lhs[i] == rhs[i]
    {
      var k := |h| + 1 - |lhs| + i;
      assert rhs[i] == (h + [x])[k];
      assert lhs[i] == (w + [x])[|w| + 1 - |lhs| + i];
    }
  }

  /** The history after broadcasting every entry of `xs`, in order, starting from `h`. */
  function AfterBroadcasts<T>(h: seq<T>, xs: seq<T>, bufSize: nat): seq<T>
    decreases |xs|
  {
    if xs == [] then h
    else Window(AfterBroadcasts(h, xs[..|xs| - 1], bufSize) + [xs[|xs| - 1]], bufSize)
  }

  /**
   * Starting from a history within bounds, any run of broadcasts leaves
   * exactly the newest `bufSize` entries of everything seen, oldest first.
   */
  lemma {:induction false} AfterBroadcastsIsWindow<T>(h: seq<T>, xs: seq<T>, bufSize: nat)
    requires |h| <= bufSize
    ensures AfterBroadcasts(h, xs, bufSize) == Window(h + xs, bufSize)
  {
    if xs == [] {
      assert h + xs == h;
    } else {
      var init, x := xs[..|xs| - 1], xs[|xs| - 1];
      assert xs == init + [x];
      assert h + xs == (h + init) + [x];
      calc {
        AfterBroadcasts(h, xs, bufSize);
        Window(AfterBroadcasts(h, init, bufSize) + [x], bufSize);
        { AfterBroadcastsIsWindow(h, init, bufSize); }
        Window(Window(h + init, bufSize) + [x], bufSize);
        { WindowAppend(h + init, x, bufSize); }
        Window((h + init) + [x], bufSize);
      }
    }
  }

  /** From an empty history, N broadcasts leave the last min(N, bufSize) of them, in order. */
  lemma {:induction false} FreshHistoryKeepsNewest<T>(xs: seq<T>, bufSize: nat)
    ensures AfterBroadcasts([], xs, bufSize) == xs[|xs| - Min(|xs|, bufSize)..]
  {
    AfterBroadcastsIsWindow([], xs, bufSize);
    assert [] + xs == xs;
  }
}
