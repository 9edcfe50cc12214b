/**
 * The bounded history window shared by the streaming session and the
 * streaming page: `[...prev, x].slice(-20)`.
 */
module RingBuffer {

  /** Number of readings the window keeps. */
  const Capacity: nat := 20

  /** The newest min(n, |s|) elements of s, oldest first. */
  function LastN<T>(s: seq<T>, n: nat): seq<T> {
    if |s| <= n then s else s[|s| - n..]
  }

  /** Appends x and keeps only the newest Capacity entries. */
  function Push<T>(buf: seq<T>, x: T): (r: seq<T>)
    ensures |r| <= Capacity
    ensures |r| == if |buf| < Capacity then |buf| + 1 else Capacity
    ensures r[|r| - 1] == x
    ensures r[..|r| - 1] == LastN(buf, Capacity - 1)
  {
    var u := buf + [x];
    if |u| <= Capacity then u else u[|u| - Capacity..]
  }

  /** Pushes every element of xs, in order. */
  function PushAll<T>(buf: seq<T>, xs: seq<T>): seq<T>
    decreases |xs|
  {
    if |xs| == 0 then buf else PushAll(Push(buf, xs[0]), xs[1..])
  }

  /** Trimming a prefix that LastN would drop anyway changes nothing. */
  lemma LastNAfterTrim<T>(a: seq<T>, b: seq<T>, n: nat)
    ensures LastN(LastN(a, n) + b, n) == LastN(a + b, n)
  {
    if |a| > n {
      var p := a[..|a| - n];
      assert a + b == p + (LastN(a, n) + b);
    }
  }

  /** LastNAfterTrim with the appended part given in two pieces. */
  lemma LastNAfterTrimAppend<T>(a: seq<T>, b: seq<T>, c: seq<T>, n: nat)
    ensures LastN(LastN(a + b, n) + c, n) == LastN(a + (b + c), n)
  {
    LastNAfterTrim(a + b, c, n);
    assert (a + b) + c == a + (b + c);
  }

  /**
   * After any sequence of pushes onto a window within bounds, the window is
   * the newest Capacity elements of everything seen, in arrival order.
   */
  lemma {:induction false} PushAllKeepsMostRecent<T>(buf: seq<T>, xs: seq<T>)
    requires |buf| <= Capacity
    ensures PushAll(buf, xs) == LastN(buf + xs, Capacity)
    decreases |xs|
  {
    if |xs| == 0 {
      assert buf + xs == buf;
    } else {
      var b' := Push(buf, xs[0]);
      PushAllKeepsMostRecent(b', xs[1..]);
      assert b' == LastN(buf + [xs[0]], Capacity);
      LastNAfterTrim(buf + [xs[0]], xs[1..], Capacity);
      assert buf + [xs[0]] + xs[1..] == buf + xs;
    }
  }

  /** From an empty window: the newest min(n, 20) pushed readings, in order. */
  lemma FromEmptyKeepsMostRecent<T>(xs: seq<T>)
    ensures |PushAll([], xs)| == if |xs| <= Capacity then |xs| else Capacity
    ensures PushAll([], xs) == xs[|xs| - |PushAll([], xs)|..]
  {
    PushAllKeepsMostRecent([], xs);
    assert [] + xs == xs;
  }
}
