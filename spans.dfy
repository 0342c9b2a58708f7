/**
 * Span events of the OpenTelemetry tracer used by the articles service. Each traced Go
 * function starts a span, may set attributes on it, and ends it with `defer`; the model
 * returns the events an operation emits rather than sending them to a global tracer.
 */
module Spans {
  import opened Wrappers

  datatype SpanEvent = Start(name: string) | Attr(key: string, value: string) | End(name: string)

  /** A value together with the span events produced while computing it. */
  datatype Traced<T> = Traced(value: T, spans: seq<SpanEvent>)

  /** The events of a span named `name` that encloses `inner`: started first, ended last. */
  function Bracket(name: string, inner: seq<SpanEvent>): (r: seq<SpanEvent>)
    ensures |r| == |inner| + 2
    ensures r[0] == Start(name) && r[|r| - 1] == End(name) && r[1..|r| - 1] == inner
  {
    [Start(name)] + inner + [End(name)]
  }

  /**
   * Replays events against the stack of open span names: an end must close the innermost
   * open span, an attribute needs an open span. None when the events are out of order.
   */
  function Replay(events: seq<SpanEvent>, open: seq<string>): Option<seq<string>>
  {
    if events == [] then Some(open)
    else match events[0]
      case Start(n) => Replay(events[1..], open + [n])
      case Attr(_, _) => if open == [] then None else Replay(events[1..], open)
      case End(n) =>
        if open != [] && open[|open| - 1] == n then Replay(events[1..], open[..|open| - 1]) else None
  }

  /** Every span started is ended, innermost first, and nothing is left open. */
  predicate Balanced(events: seq<SpanEvent>)
  {
    Replay(events, []) == Some([])
  }

  lemma {:induction false} ReplayAppend(a: seq<SpanEvent>, b: seq<SpanEvent>, open: seq<string>)
    ensures Replay(a + b, open) == match Replay(a, open) case None => None case Some(o) => Replay(b, o)
  {
    if a != [] {
      assert (a + b)[1..] == a[1..] + b;
      match a[0]
      case Start(n) => ReplayAppend(a[1..], b, open + [n]);
      case Attr(_, _) => if open != [] { ReplayAppend(a[1..], b, open); }
      case End(n) => if open != [] && open[|open| - 1] == n { ReplayAppend(a[1..], b, open[..|open| - 1]); }
    } else {
      assert a + b == b;
    }
  }

  /** A run that succeeds from stack `p` also succeeds below any further open spans `o`. */
  lemma {:induction false} ReplayUnder(a: seq<SpanEvent>, o: seq<string>, p: seq<string>, q: seq<string>)
    requires Replay(a, p) == Some(q)
    ensures Replay(a, o + p) == Some(o + q)
  {
    if a != [] {
      match a[0]
      case Start(n) =>
        assert (o + p) + [n] == o + (p + [n]);
        ReplayUnder(a[1..], o, p + [n], q);
      case Attr(_, _) =>
        ReplayUnder(a[1..], o, p, q);
      case End(n) =>
        assert (o + p)[..|o + p| - 1] == o + p[..|p| - 1];
        ReplayUnder(a[1..], o, p[..|p| - 1], q);
    } else {
      assert p == q;
    }
  }

  /** A span is balanced when its inner events, run with only that span open, leave it open. */
  lemma BracketRun(name: string, inner: seq<SpanEvent>)
    requires Replay(inner, [name]) == Some([name])
    ensures Balanced(Bracket(name, inner))
  {
    assert Bracket(name, inner) == [Start(name)] + (inner + [End(name)]);
    ReplayAppend([Start(name)], inner + [End(name)], []);
    assert Replay([Start(name)], []) == Some([name]) by {
      assert [Start(name)][1..] == [];
    }
    ReplayAppend(inner, [End(name)], [name]);
    assert Replay([End(name)], [name]) == Some([]) by {
      assert [End(name)][1..] == [];
      assert [name][..0] == [];
    }
  }

  /** A span around balanced events is balanced. */
  lemma BracketBalanced(name: string, inner: seq<SpanEvent>)
    requires Balanced(inner)
    ensures Balanced(Bracket(name, inner))
  {
    ReplayUnder(inner, [name], [], []);
    assert [name] + [] == [name];
    BracketRun(name, inner);
  }

  /** A span that sets one attribute and then encloses balanced events is balanced. */
  lemma TaggedBracketBalanced(name: string, key: string, value: string, rest: seq<SpanEvent>)
    requires Balanced(rest)
    ensures Balanced(Bracket(name, [Attr(key, value)] + rest))
  {
    ReplayAppend([Attr(key, value)], rest, [name]);
    assert Replay([Attr(key, value)], [name]) == Some([name]) by {
      assert [Attr(key, value)][1..] == [];
    }
    ReplayUnder(rest, [name], [], []);
    assert [name] + [] == [name];
    BracketRun(name, [Attr(key, value)] + rest);
  }

  /** Balanced sequences of events stay balanced when run one after the other. */
  lemma ConcatBalanced(a: seq<SpanEvent>, b: seq<SpanEvent>)
    requires Balanced(a) && Balanced(b)
    ensures Balanced(a + b)
  {
    ReplayAppend(a, b, []);
  }
}
