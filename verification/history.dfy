/** The chart history: a FIFO window of at most 50 points, one appended per tick. */
module History {

  const Capacity := 50

  function MinNat(a: nat, b: nat): nat {
    if a <= b then a else b
  }

  function Last<T>(s: seq<T>): T
    requires |s| > 0
  {
    s[|s| - 1]
  }

  lemma MinNatStep(a: nat, n: nat, k: nat)
    ensures MinNat(MinNat(a + 1, k) + n, k) == MinNat(a + 1 + n, k)
  {
  }

  /** The last `min(|s|, k)` elements of `s`. */
  function Window<T>(s: seq<T>, k: nat): (w: seq<T>)
    ensures |w| == MinNat(|s|, k)
  {
    s[|s| - MinNat(|s|, k)..]
  }

  /** `[...prev, point]`, cut back to its last 50 elements when longer. The
      result is the window of the extended sequence: everything kept is in
      its original order and the new point is last. */
  function Append<T>(prev: seq<T>, point: T): (r: seq<T>)
    ensures r == Window(prev + [point], Capacity)
  {
    var next := prev + [point];
    if |next| > Capacity then next[|next| - Capacity..] else next
  }

  /** After an append the history has one more point, up to 50; the new point
      is last; below capacity nothing is evicted; and every point kept is the
      new one or an old one. */
  lemma AppendShape<T>(prev: seq<T>, point: T)
    ensures |Append(prev, point)| == MinNat(|prev| + 1, Capacity)
    ensures Last(Append(prev, point)) == point
    ensures |prev| < Capacity ==> Append(prev, point) == prev + [point]
    ensures forall x :: x in Append(prev, point) ==> x in prev || x == point
  {
    var next := prev + [point];
    var r := Append(prev, point);
    assert r == next[|next| - |r|..];
    forall x | x in r
      ensures x in prev || x == point
    {
      var i :| 0 <= i < |r| && r[i] == x;
      assert x == next[|next| - |r| + i];
    }
  }

  /** Appending points one tick at a time, oldest first. */
  function AppendAll<T>(buf: seq<T>, points: seq<T>): seq<T>
    decreases |points|
  {
    if points == [] then buf else AppendAll(Append(buf, points[0]), points[1..])
  }

  /** Cutting to the window first and then extending changes nothing. */
  lemma WindowConcat<T>(s: seq<T>, t: seq<T>, k: nat)
    ensures Window(Window(s, k) + t, k) == Window(s + t, k)
  {
    var w := Window(s, k);
    var tail := (s + t)[|s| - |w|..];
    assert w + t == tail;
    assert Window(tail, k) == Window(s + t, k);
  }

  /** Any number of ticks leave exactly the last (at most 50) points of
      everything ever appended, in order. */
  lemma {:induction false} AppendAllIsWindow<T>(buf: seq<T>, points: seq<T>)
    requires |buf| <= Capacity
    ensures AppendAll(buf, points) == Window(buf + points, Capacity)
    decreases |points|
  {
    if points == [] {
      AppendNoneIsWindow(buf);
    } else {
      AppendAllIsWindow(Append(buf, points[0]), points[1..]);
      AppendFirstThenWindow(buf, points);
    }
  }

  lemma AppendNoneIsWindow<T>(buf: seq<T>)
    requires |buf| <= Capacity
    ensures AppendAll(buf, []) == Window(buf + [], Capacity)
  {
    assert buf + [] == buf;
  }

  /** The inductive step: once the rest is known to append as a window, so
      does the whole. */
  lemma AppendFirstThenWindow<T>(buf: seq<T>, points: seq<T>)
    requires |points| > 0
    requires AppendAll(Append(buf, points[0]), points[1..])
             == Window(Append(buf, points[0]) + points[1..], Capacity)
    ensures AppendAll(buf, points) == Window(buf + points, Capacity)
  {
    var head, rest := buf + [points[0]], points[1..];
    assert AppendAll(buf, points) == AppendAll(Append(buf, points[0]), rest);
    WindowConcat(head, rest, Capacity);
    SplitFirst(buf, points);
  }

  lemma SplitFirst<T>(buf: seq<T>, points: seq<T>)
    requires |points| > 0
    ensures buf + [points[0]] + points[1..] == buf + points
  {
    assert [points[0]] + points[1..] == points;
  }

  /** From an empty history, appending `n >= 50` points leaves exactly the
      last 50 of them. */
  lemma FromEmpty<T>(points: seq<T>)
    requires |points| >= Capacity
    ensures AppendAll([], points) == points[|points| - Capacity..]
    ensures |AppendAll([], points)| == Capacity
  {
    AppendAllIsWindow([], points);
    assert [] + points == points;
  }
}
