/** The live chart's history (frontend/src/app/components/MetricsChart.tsx):
    every telemetry message replaces the history with the last 29 entries of
    the previous one followed by the new metric. The metric record itself
    (built with `Number(...)` from the socket message) is left abstract. */
module MetricsChart {

  /** The most entries the chart ever holds. */
  const Capacity := 30

  function Min(a: int, b: int): int {
    if a <= b then a else b
  }

  /** The last `min(n, |s|)` elements of `s`, in order. */
  function Last<M>(s: seq<M>, n: nat): (r: seq<M>)
    ensures |r| == Min(n, |s|)
    ensures forall i :: 0 <= i < |r| ==> r[i] == s[|s| - |r| + i]
  {
    s[|s| - Min(n, |s|)..]
  }

  /** `[...prev.slice(-29), metric]`: `slice(-29)` starts 29 from the end, or at
      the start when there are fewer. */
  function Slide<M>(prev: seq<M>, metric: M): (next: seq<M>)
    ensures |next| == Min(|prev| + 1, Capacity)
    ensures next[|next| - 1] == metric
    ensures next[..|next| - 1] == Last(prev, Capacity - 1)
    ensures |prev| < Capacity ==> next == prev + [metric]
  {
    var start := if |prev| > Capacity - 1 then |prev| - (Capacity - 1) else 0;
    prev[start..] + [metric]
  }

  /** The history after the messages `ms` have arrived, in order, starting
      from `h`. */
  function Replay<M>(h: seq<M>, ms: seq<M>): seq<M>
    decreases |ms|
  {
    if ms == [] then h else Slide(Replay(h, ms[..|ms| - 1]), ms[|ms| - 1])
  }

  lemma LastOfLast<M>(s: seq<M>, x: M)
    ensures Last(Last(s, Capacity), Capacity - 1) + [x] == Last(s + [x], Capacity)
  {
    var a := Last(Last(s, Capacity), Capacity - 1) + [x];
    var b := Last(s + [x], Capacity);
    assert b == (s + [x])[|s + [x]| - Min(Capacity, |s| + 1)..];
    assert |a| == |b|;
    forall i | 0 <= i < |a| ensures a[i] == b[i] {
      if i < |a| - 1 {
        assert a[i] == s[|s| - |a| + 1 + i];
      }
    }
  }

  /** A sequence that fits is its own last 30. */
  lemma LastOfShort<M>(s: seq<M>)
    requires |s| <= Capacity
    ensures Last(s, Capacity) == s
  {
  }

  /** One more message slides the window of the newest 30 by one. */
  lemma SlideLast<M>(s: seq<M>, x: M)
    ensures Slide(Last(s, Capacity), x) == Last(s + [x], Capacity)
  {
    var prev := Last(s, Capacity);
    assert Slide(prev, x) == Last(prev, Capacity - 1) + [x];
    LastOfLast(s, x);
  }

  /** Whatever arrives, the chart shows exactly the newest messages, at most
      30 of them, in arrival order: starting from a history of at most 30
      entries, the history after more messages is the last 30 of everything
      received. */
  lemma {:induction false} ReplayKeepsNewest<M>(h: seq<M>, ms: seq<M>)
    requires |h| <= Capacity
    ensures Replay(h, ms) == Last(h + ms, Capacity)
    decreases |ms|
  {
    if ms == [] {
      AppendNothing(h, ms);
      LastOfShort(h);
    } else {
      var init, x := ms[..|ms| - 1], ms[|ms| - 1];
      ReplayKeepsNewest(h, init);
      SlideLast(h + init, x);
      SplitLast(h, ms);
    }
  }

  lemma AppendNothing<M>(h: seq<M>, ms: seq<M>)
    requires ms == []
    ensures h + ms == h
  {
  }

  lemma SplitLast<M>(h: seq<M>, ms: seq<M>)
    requires ms != []
    ensures (h + ms[..|ms| - 1]) + [ms[|ms| - 1]] == h + ms
  {
    assert ms == ms[..|ms| - 1] + [ms[|ms| - 1]];
  }

  /** The chart component's state: the history it renders. */
  class History<M> {
    var entries: seq<M>

    ghost predicate Valid()
      reads this
    {
      |entries| <= Capacity
    }

    /** `useState<Metric[]>([])`. */
    constructor ()
      ensures Valid() && entries == []
    {
      entries := [];
    }

    /** `socket.onmessage`: `setHistory(prev => [...prev.slice(-29), metric])`. */
    method OnMessage(metric: M)
      requires Valid()
      modifies this
      ensures Valid()
      ensures entries == Slide(old(entries), metric)
    {
      entries := Slide(entries, metric);
    }
  }
}
