/** Anomalous periods of one series joined into events. */
module AnomalyEvents {
  /** An anomalous period: where it starts and where it ends. */
  datatype Span = Span(start: int, end: int)

  type Event = seq<Span>

  /** The next period begins after the one before it has ended. */
  predicate Gap(before: Span, next: Span) { next.start > before.end }

  function Front<T>(xs: seq<T>): seq<T>
    requires xs != []
  {
    xs[..|xs| - 1]
  }

  function Last<T>(xs: seq<T>): T
    requires xs != []
  {
    xs[|xs| - 1]
  }

  /** A run without a gap. */
  ghost predicate Joined(e: Event) {
    e != [] && (|e| > 1 ==> Joined(Front(e)) && !Gap(Last(Front(e)), Last(e)))
  }

  function Flat(events: seq<Event>): seq<Span> {
    if events == [] then [] else Flat(Front(events)) + Last(events)
  }

  /** Runs without a gap, with a gap from each to the next. */
  ghost predicate Separated(events: seq<Event>) {
    events != [] ==>
      && Joined(Last(events)) && Separated(Front(events))
      && (|events| > 1 ==> Apart(Last(Front(events)), Last(events)))
  }

  ghost predicate Apart(a: Event, b: Event) { a != [] && b != [] && Gap(Last(a), b[0]) }

  /** Separated runs that hold all periods in order. */
  ghost predicate Splits(rows: seq<Span>, events: seq<Event>) { Flat(events) == rows && Separated(events) }

  lemma Close(events: seq<Event>, e: Event)
    requires Separated(events) && Joined(e) && (events != [] ==> Apart(Last(events), e))
    ensures Flat(events + [e]) == Flat(events) + e && Separated(events + [e])
  {
    assert Front(events + [e]) == events;
  }

  lemma Extend(e: Event, s: Span)
    requires e != [] ==> Joined(e) && !Gap(Last(e), s)
    ensures Joined(e + [s])
  {
    assert Front(e + [s]) == e;
  }

  method GroupAnomalies(rows: seq<Span>) returns (groups: seq<Event>)
    ensures Splits(rows, groups)
  {
    groups := [];
    var current: Event := [];
    for i := 0 to |rows|
      invariant Flat(groups) + current == rows[..i] && Separated(groups)
      invariant current == [] ==> i == 0 && groups == []
      invariant current != [] ==> Joined(current) && (groups != [] ==> Apart(Last(groups), current))
    {
      if current != [] && rows[i].start > current[|current| - 1].end {
        Close(groups, current);
        groups := groups + [current];
        current := [];
      }
      Extend(current, rows[i]);
      current := current + [rows[i]];
    }
    if current != [] {
      Close(groups, current);
      groups := groups + [current];
    }
  }

  /** The last event ends the rows, behind a gap; the others split what is before it. */
  lemma LastEvent(rows: seq<Span>, events: seq<Event>) returns (x: Event)
    requires Splits(rows, events) && rows != []
    ensures events != [] && x == Last(events) && Joined(x) && |x| <= |rows| && x == rows[|rows| - |x|..]
    ensures Splits(rows[..|rows| - |x|], Front(events))
    ensures |x| < |rows| ==> Gap(rows[|rows| - |x| - 1], x[0])
  {
    x := Last(events);
    var before := Flat(Front(events));
    assert before == rows[..|rows| - |x|];
    if |x| < |rows| {
      assert before == Flat(Front(Front(events))) + Last(Front(events));
    }
  }

  lemma {:induction false} JoinedAt(e: Event, i: nat)
    requires Joined(e) && i + 1 < |e|
    ensures !Gap(e[i], e[i + 1])
  {
    if i + 2 < |e| {
      JoinedAt(Front(e), i);
    }
  }

  /** A run that reaches further back than an event would cross the gap before it. */
  lemma NoLonger(rows: seq<Span>, x: Event, y: Event)
    requires Joined(x) && Joined(y) && |x| <= |rows| && |y| <= |rows|
    requires x == rows[|rows| - |x|..] && y == rows[|rows| - |y|..]
    requires |x| < |rows| ==> Gap(rows[|rows| - |x| - 1], x[0])
    ensures |y| <= |x|
  {
    if |x| < |y| {
      JoinedAt(y, |y| - |x| - 1);
    }
  }

  /** There is only one such split. */
  lemma {:induction false} SplitIsUnique(rows: seq<Span>, a: seq<Event>, b: seq<Event>)
    requires Splits(rows, a) && Splits(rows, b)
    ensures a == b
    decreases |rows|
  {
    if rows != [] {
      var x := LastEvent(rows, a);
      var y := LastEvent(rows, b);
      NoLonger(rows, x, y);
      NoLonger(rows, y, x);
      SplitIsUnique(rows[..|rows| - |x|], Front(a), Front(b));
      assert a == Front(a) + [x] && b == Front(b) + [y];
    }
  }
}
