/** Capacity-bounded FIFO windows over a history of appended values.

    The line chart keeps its recent history in arrays that grow at the tail
    and lose one element at the head once they exceed their capacity. This
    module states that append step on plain sequences and relates it to the
    "last n elements of everything appended" reading of the chart.
 */
module Rolling {

  /** The last n elements of s, in their original order (all of s when it
      is no longer than n). */
  function Window<T>(s: seq<T>, n: nat): (r: seq<T>)
    ensures |r| == if |s| <= n then |s| else n
    ensures s == s[..|s| - |r|] + r
  {
    if |s| <= n then s else s[|s| - n..]
  }

  /** One append as the chart performs it: push x at the tail, then, if the
      length now exceeds cap, shift a single element off the head. */
  function Push<T>(s: seq<T>, x: T, cap: nat): (r: seq<T>)
    ensures |s| <= cap ==> |r| <= cap
    ensures |s| < cap ==> r == s + [x]
    ensures 0 < cap <= |s| ==> |r| == |s| && r == s[1..] + [x]
  {
    var t := s + [x];
    if |t| > cap then t[1..] else t
  }

  /** Appends every element of xs to s, one Push at a time. */
  function Replay<T>(s: seq<T>, xs: seq<T>, cap: nat): seq<T>
    decreases |xs|
  {
    if xs == [] then s else Replay(Push(s, xs[0], cap), xs[1..], cap)
  }

  /** On a window that respects the capacity, one Push is exactly the window
      of the extended history: at most one head element is dropped, and only
      when the capacity would be exceeded. */
  lemma PushIsWindow<T>(s: seq<T>, x: T, cap: nat)
    requires |s| <= cap
    ensures Push(s, x, cap) == Window(s + [x], cap)
  {
  }

  /** Windowing twice over a growing history is windowing once. */
  lemma WindowOfWindow<T>(a: seq<T>, b: seq<T>, n: nat)
    ensures Window(Window(a, n) + b, n) == Window(a + b, n)
  {
    var w := Window(a, n);
    if |w + b| > n {
      calc {
        Window(w + b, n);
        (w + b)[|w + b| - n..];
        { assert a + b == a[..|a| - |w|] + (w + b); }
        (a + b)[|a + b| - n..];
      }
    } else if |a| > n {
      assert b == [] && a + b == a;
    }
  }

  /** Appending a whole history one element at a time, starting from a
      window within the capacity, leaves the last cap elements of everything
      appended, in the order they arrived. */
  lemma {:induction false} ReplayIsWindow<T>(s: seq<T>, xs: seq<T>, cap: nat)
    requires |s| <= cap
    ensures Replay(s, xs, cap) == Window(s + xs, cap)
    decreases |xs|
  {
    if xs == [] {
      assert s + xs == s;
    } else {
      var x, rest := xs[0], xs[1..];
      var s' := Push(s, x, cap);
      PushIsWindow(s, x, cap);
      ReplayIsWindow(s', rest, cap);
      WindowOfWindow(s + [x], rest, cap);
      calc {
        Replay(s, xs, cap);
        Replay(s', rest, cap);
        Window(s' + rest, cap);
        Window(Window(s + [x], cap) + rest, cap);
        Window(s + [x] + rest, cap);
        { assert s + [x] + rest == s + xs; }
        Window(s + xs, cap);
      }
    }
  }
}
