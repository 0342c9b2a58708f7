/**
 * The `Trace` decorator of the suggestions service (apps/suggestions/tracing.py): the
 * source-line scanner `_already_decorated_methods`, the check that keeps the decorator from
 * wrapping its own wrapper, and the request-flag logic of `wrapped_f`, which decides whether
 * a call opens a span and what that span is parented on.
 */
module PyTrace {
  import opened Wrappers
  import opened Spans

  // ---- the Python string operations the scanner uses ----

  /** str.isspace for one character: the characters str.strip() removes. */
  predicate IsSpace(c: char)
  {
    ('\t' <= c <= '\r') || ('\U{1c}' <= c <= '\U{1f}') || c == ' ' || c == '\U{85}' || c == '\U{a0}'
    || c == '\U{1680}' || ('\U{2000}' <= c <= '\U{200a}') || c == '\U{2028}' || c == '\U{2029}'
    || c == '\U{202f}' || c == '\U{205f}' || c == '\U{3000}'
  }

  /** str.lstrip(): the suffix left once the leading whitespace is removed. */
  function LStrip(s: string): (r: string)
    ensures |r| <= |s| && r == s[|s| - |r|..]
    ensures r == [] || !IsSpace(r[0])
    ensures forall i :: 0 <= i < |s| - |r| ==> IsSpace(s[i])
  {
    if s != [] && IsSpace(s[0]) then LStrip(s[1..]) else s
  }

  /** str.rstrip(): the prefix left once the trailing whitespace is removed. */
  function RStrip(s: string): (r: string)
    ensures |r| <= |s| && r == s[..|r|]
    ensures r == [] || !IsSpace(r[|r| - 1])
    ensures forall i :: |r| <= i < |s| ==> IsSpace(s[i])
  {
    if s != [] && IsSpace(s[|s| - 1]) then RStrip(s[..|s| - 1]) else s
  }

  /** r is what is left of s, from position i on, once only whitespace is removed from both ends. */
  predicate StrippedAt(s: string, r: string, i: nat)
  {
    i + |r| <= |s| && r == s[i..i + |r|] &&
    (forall k :: 0 <= k < i ==> IsSpace(s[k])) && (forall k :: i + |r| <= k < |s| ==> IsSpace(s[k]))
  }

  /** str.strip(): s with only its leading and trailing whitespace removed. */
  function Strip(s: string): (r: string)
    ensures r == [] || (!IsSpace(r[0]) && !IsSpace(r[|r| - 1]))
    ensures exists i: nat :: StrippedAt(s, r, i)
  {
    StripSlice(s);
    RStrip(LStrip(s))
  }

  /** RStrip(LStrip(s)) sits in s right after the leading whitespace. */
  lemma StripSlice(s: string)
    ensures StrippedAt(s, RStrip(LStrip(s)), |s| - |LStrip(s)|)
  {
    StrippedFrom(s, LStrip(s), RStrip(LStrip(s)));
  }

  /** Whitespace before a suffix l of s, and whitespace after a prefix r of l, leave r stripped from s. */
  lemma StrippedFrom(s: string, l: string, r: string)
    requires |l| <= |s| && l == s[|s| - |l|..] && forall k :: 0 <= k < |s| - |l| ==> IsSpace(s[k])
    requires |r| <= |l| && r == l[..|r|] && forall k :: |r| <= k < |l| ==> IsSpace(l[k])
    ensures StrippedAt(s, r, |s| - |l|)
  {
    PrefixOfSuffix(s, l, r);
    forall k | |s| - |l| + |r| <= k < |s| ensures IsSpace(s[k]) {
      assert s[k] == l[k - (|s| - |l|)];
    }
  }

  /** A prefix r of a suffix l of s occurs in s where l begins. */
  lemma PrefixOfSuffix(s: string, l: string, r: string)
    requires |l| <= |s| && l == s[|s| - |l|..]
    requires |r| <= |l| && r == l[..|r|]
    ensures OccursAt(s, r, |s| - |l|)
  {
    var i := |s| - |l|;
    forall k | 0 <= k < |r| ensures s[i + k] == r[k] {
      assert r[k] == l[k] == s[i + k];
    }
    assert s[i..i + |r|] == r;
  }

  /** Strip(s) is the piece of s right after its leading whitespace. */
  lemma StripWithin(s: string)
    ensures OccursAt(s, Strip(s), |s| - |LStrip(s)|)
  {
    PrefixOfSuffix(s, LStrip(s), RStrip(LStrip(s)));
  }

  /** Stripping twice is stripping once. */
  lemma StripIdempotent(s: string)
    ensures Strip(Strip(s)) == Strip(s)
  {
    var r := Strip(s);
    assert LStrip(r) == r;
    assert RStrip(r) == r;
  }

  /** `sep` occurs in `s` at position j. */
  predicate OccursAt(s: string, sep: string, j: nat)
  {
    j + |sep| <= |s| && s[j..j + |sep|] == sep
  }

  /** Where `sep` first occurs in `s`: str.find, with None for -1. */
  function IndexOf(s: string, sep: string): (r: Option<nat>)
    requires sep != []
    ensures r.Some? ==> OccursAt(s, sep, r.value) && forall j :: 0 <= j < r.value ==> !OccursAt(s, sep, j)
    ensures r.None? ==> forall j :: 0 <= j ==> !OccursAt(s, sep, j)
  {
    if |s| < |sep| then None
    else if s[..|sep|] == sep then Some(0)
    else
      var r := IndexOf(s[1..], sep);
      assert !OccursAt(s, sep, 0);
      assert forall j: nat | j >= 1 :: OccursAt(s, sep, j) <==> OccursAt(s[1..], sep, j - 1) by {
        forall j: nat | j >= 1 ensures OccursAt(s, sep, j) <==> OccursAt(s[1..], sep, j - 1) {
          if j + |sep| <= |s| {
            assert s[1..][j - 1..j - 1 + |sep|] == s[j..j + |sep|];
          }
        }
      }
      match r
      case None => None
      case Some(i) => Some(i + 1)
  }

  /** str.split(sep): the pieces between the non-overlapping occurrences of `sep`, left to right. */
  function Split(s: string, sep: string): (parts: seq<string>)
    requires sep != []
    ensures |parts| >= 1
    ensures |parts[0]| <= |s| && parts[0] == s[..|parts[0]|]
    decreases |s|
  {
    match IndexOf(s, sep)
    case None => [s]
    case Some(i) => [s[..i]] + Split(s[i + |sep|..], sep)
  }

  /** sep.join(parts). */
  function Join(parts: seq<string>, sep: string): string
  {
    if parts == [] then [] else if |parts| == 1 then parts[0] else parts[0] + sep + Join(parts[1..], sep)
  }

  /** Where `sep` occurs, split cuts: the first piece, then the split of what follows the separator. */
  lemma SplitAt(s: string, sep: string, i: nat)
    requires sep != [] && IndexOf(s, sep) == Some(i)
    ensures Split(s, sep) == [s[..i]] + Split(s[i + |sep|..], sep)
    ensures s == s[..i] + sep + s[i + |sep|..]
  {
    CutAt(s, sep, i);
  }

  lemma CutAt(s: string, sep: string, i: nat)
    requires OccursAt(s, sep, i)
    ensures s == s[..i] + sep + s[i + |sep|..]
  {
    var rest := s[i + |sep|..];
    assert s[i..] == s[i..i + |sep|] + rest;
    calc {
      s;
      s[..i] + s[i..];
      s[..i] + (sep + rest);
      s[..i] + sep + rest;
    }
  }

  /** Joining the pieces of a split with the same separator gives the string back. */
  lemma {:induction false} JoinSplit(s: string, sep: string)
    requires sep != []
    ensures Join(Split(s, sep), sep) == s
    decreases |s|
  {
    match IndexOf(s, sep)
    case None =>
    case Some(i) =>
      var rest := s[i + |sep|..];
      SplitAt(s, sep, i);
      JoinSplit(rest, sep);
      var parts := Split(s, sep);
      assert parts[0] == s[..i] && parts[1..] == Split(rest, sep);
  }

  /** No piece of a split contains the separator. */
  lemma {:induction false} SplitPiecesFree(s: string, sep: string, k: nat)
    requires sep != [] && k < |Split(s, sep)|
    ensures IndexOf(Split(s, sep)[k], sep).None?
    decreases |s|
  {
    match IndexOf(s, sep)
    case None =>
    case Some(i) =>
      SplitAt(s, sep, i);
      if k == 0 {
        PrefixBeforeFirstFree(s, sep, i);
      } else {
        SplitPiecesFree(s[i + |sep|..], sep, k - 1);
        assert Split(s, sep)[k] == Split(s[i + |sep|..], sep)[k - 1];
      }
  }

  /** The text before the first occurrence holds no occurrence. */
  lemma PrefixBeforeFirstFree(s: string, sep: string, i: nat)
    requires sep != [] && IndexOf(s, sep) == Some(i)
    ensures IndexOf(s[..i], sep).None?
  {
    var head := s[..i];
    forall j: nat ensures !OccursAt(head, sep, j) {
      if j + |sep| <= |head| {
        assert j < i && !OccursAt(s, sep, j);
        assert head[j..j + |sep|] == s[j..j + |sep|];
      }
    }
  }

  // ---- _already_decorated_methods ----

  /** The text before the first "(": the first piece of split("("). */
  function BeforeParen(s: string): (r: string)
    ensures |r| <= |s| && r == s[..|r|]
    ensures '(' !in r
    ensures |r| == |s| || s[|r|] == '('
  {
    FirstPieceEnds(s, "(");
    SplitPiecesFree(s, "(", 0);
    NoOccurrenceNotIn(Split(s, "(")[0], '(');
    Split(s, "(")[0]
  }

  /** The first piece of a split ends where the string ends or the separator begins. */
  lemma FirstPieceEnds(s: string, sep: string)
    requires sep != []
    ensures |Split(s, sep)[0]| == |s| || OccursAt(s, sep, |Split(s, sep)[0]|)
  {
    match IndexOf(s, sep)
    case None =>
    case Some(i) => SplitAt(s, sep, i);
  }

  /** A text in which the one-character string [c] never occurs does not hold c. */
  lemma NoOccurrenceNotIn(s: string, c: char)
    requires IndexOf(s, [c]).None?
    ensures c !in s
  {
    forall k | 0 <= k < |s| ensures s[k] != c {
      assert s[k..k + 1] == [s[k]];
      assert !OccursAt(s, [c], k);
    }
  }

  /** A line whose text before the first "(", stripped, is "@" followed by the decorator name. */
  predicate IsDecoratorLine(line: string, decoratorName: string): (b: bool)
    ensures b ==> exists k: nat :: OccursAt(line, "@" + decoratorName, k)
  {
    HeadWithin(line);
    Strip(BeforeParen(Strip(line))) == "@" + decoratorName
  }

  /** The tested head of a line, Strip(BeforeParen(Strip(line))), is a piece of the line. */
  lemma HeadWithin(line: string)
    ensures exists k: nat :: OccursAt(line, Strip(BeforeParen(Strip(line))), k)
  {
    var p := BeforeParen(Strip(line));
    StripWithin(line);
    StripWithin(p);
    var k := Chain(line, Strip(line), p, Strip(p), |line| - |LStrip(line)|, |p| - |LStrip(p)|);
  }

  /** A piece t of a prefix p of a piece s1 of line is a piece of line. */
  lemma Chain(line: string, s1: string, p: string, t: string, i1: nat, i2: nat) returns (k: nat)
    requires OccursAt(line, s1, i1) && |p| <= |s1| && p == s1[..|p|] && OccursAt(p, t, i2)
    ensures OccursAt(line, t, k)
  {
    assert OccursAt(s1, p, 0);
    OccursWithin(line, s1, p, i1, 0);
    OccursWithin(line, p, t, i1, i2);
    k := i1 + i2;
  }

  /** A piece of a piece of s is a piece of s. */
  lemma OccursWithin(s: string, mid: string, t: string, i: nat, j: nat)
    requires OccursAt(s, mid, i) && OccursAt(mid, t, j)
    ensures OccursAt(s, t, i + j)
  {
    forall m | 0 <= m < |t| ensures s[i + j + m] == t[m] {
      assert t[m] == mid[j + m] == s[i + j + m];
    }
    assert s[i + j..i + j + |t|] == t;
  }

  /**
   * The method name read from the line after a decorator: only when "def" occurs exactly once
   * in it; then the text after "def" up to the first "(", stripped.
   */
  function DefName(next: string): (r: Option<string>)
    ensures r.Some? ==> '(' !in r.value
    ensures r.Some? && r.value != [] ==> !IsSpace(r.value[0]) && !IsSpace(r.value[|r.value| - 1])
  {
    var parts := Split(next, "def");
    if |parts| == 2 then Some(Strip(BeforeParen(parts[1]))) else None
  }

  /**
   * A name is read only from a line made of a text without "def", then "def", then a text
   * without "def"; the name is that last text up to its first "(", stripped.
   */
  lemma DefNameShape(next: string)
    requires DefName(next).Some?
    ensures exists pre, post :: next == pre + "def" + post && IndexOf(pre, "def").None? &&
                                IndexOf(post, "def").None? && DefName(next) == Some(Strip(BeforeParen(post)))
  {
    var parts := Split(next, "def");
    SplitInTwo(next, "def");
    var pre, post := parts[0], parts[1];
    assert next == pre + "def" + post;
  }

  /** A split into two pieces is one occurrence of the separator between two texts free of it. */
  lemma SplitInTwo(s: string, sep: string)
    requires sep != [] && |Split(s, sep)| == 2
    ensures s == Split(s, sep)[0] + sep + Split(s, sep)[1]
    ensures IndexOf(Split(s, sep)[0], sep).None? && IndexOf(Split(s, sep)[1], sep).None?
  {
    var parts := Split(s, sep);
    JoinSplit(s, sep);
    SplitPiecesFree(s, sep, 0);
    SplitPiecesFree(s, sep, 1);
    assert parts[1..] == [parts[1]];
  }

  /** The outcome of the scan: the names collected, or the IndexError of a decorator on the last line. */
  datatype ScanResult = Methods(names: seq<string>) | IndexError

  /** How the scan reads a line: whether it is a decorator line, and the name a following line defines. */
  datatype Rules = Rules(isDecorator: string -> bool, defName: string -> Option<string>)

  /** The rules `_already_decorated_methods` applies for the decorator class named `decoratorName`. */
  function TraceRules(decoratorName: string): (rules: Rules)
    ensures forall line :: rules.isDecorator(line) == IsDecoratorLine(line, decoratorName)
    ensures forall line :: rules.defName(line) == DefName(line)
  {
    Rules(line => IsDecoratorLine(line, decoratorName), DefName)
  }

  /** What is collected at line i: the name on the next line, if i is a decorator line that has one. */
  function Found(lines: seq<string>, rules: Rules, i: nat): seq<string>
    requires i < |lines|
  {
    if rules.isDecorator(lines[i]) && i + 1 < |lines| then
      match rules.defName(lines[i + 1])
      case Some(name) => [name]
      case None => []
    else []
  }

  /** The names collected from the first n lines, in line order. */
  function NamesBefore(lines: seq<string>, rules: Rules, n: nat): seq<string>
    requires n <= |lines|
  {
    if n == 0 then [] else NamesBefore(lines, rules, n - 1) + Found(lines, rules, n - 1)
  }

  /** The scan: IndexError exactly when the last line is a decorator line, the collected names otherwise. */
  function Scan(lines: seq<string>, rules: Rules): (r: ScanResult)
    ensures r.IndexError? <==> |lines| > 0 && rules.isDecorator(lines[|lines| - 1])
    ensures r.Methods? ==> r.names == NamesBefore(lines, rules, |lines|)
  {
    if |lines| > 0 && rules.isDecorator(lines[|lines| - 1]) then IndexError
    else Methods(NamesBefore(lines, rules, |lines|))
  }

  /** _already_decorated_methods on the source lines of a class decorated with `decoratorName`. */
  method AlreadyDecoratedMethods(lines: seq<string>, decoratorName: string) returns (r: ScanResult)
    ensures r == Scan(lines, TraceRules(decoratorName))
  {
    r := ScanLines(lines, TraceRules(decoratorName));
  }

  /** The loop of _already_decorated_methods, line by line, under the given line tests. */
  method ScanLines(lines: seq<string>, rules: Rules) returns (r: ScanResult)
    ensures r == Scan(lines, rules)
  {
    var methods: seq<string> := [];
    for i := 0 to |lines|
      invariant methods == NamesBefore(lines, rules, i)
      invariant i == |lines| && i > 0 ==> !rules.isDecorator(lines[i - 1])
    {
      assert NamesBefore(lines, rules, i + 1) == methods + Found(lines, rules, i);
      if rules.isDecorator(lines[i]) {
        if i + 1 >= |lines| {
          r := IndexError;
          return;
        }
        var name := rules.defName(lines[i + 1]);
        if name.Some? {
          methods := methods + [name.value];
        }
      }
    }
    r := Methods(methods);
  }

  /** At most one name per line. */
  lemma {:induction false} NamesBound(lines: seq<string>, rules: Rules, n: nat)
    requires n <= |lines|
    ensures |NamesBefore(lines, rules, n)| <= n
  {
    if n > 0 {
      NamesBound(lines, rules, n - 1);
    }
  }

  /** A name is collected exactly when it is read from the line after some decorator line. */
  lemma {:induction false} NamesMembership(lines: seq<string>, rules: Rules, n: nat, x: string)
    requires n <= |lines|
    ensures x in NamesBefore(lines, rules, n) <==>
              exists i :: 0 <= i < n && i + 1 < |lines| && rules.isDecorator(lines[i]) &&
                          rules.defName(lines[i + 1]) == Some(x)
  {
    if n > 0 {
      NamesMembership(lines, rules, n - 1, x);
      var i := n - 1;
      if x in Found(lines, rules, i) {
        assert i + 1 < |lines| && rules.isDecorator(lines[i]) && rules.defName(lines[i + 1]) == Some(x);
      }
    }
  }

  /** Names are collected in line order: the scan of fewer lines is a prefix of the scan of more. */
  lemma {:induction false} NamesInOrder(lines: seq<string>, rules: Rules, n: nat, m: nat)
    requires n <= m <= |lines|
    ensures |NamesBefore(lines, rules, n)| <= |NamesBefore(lines, rules, m)|
    ensures NamesBefore(lines, rules, m)[..|NamesBefore(lines, rules, n)|] == NamesBefore(lines, rules, n)
    decreases m
  {
    if n < m {
      NamesInOrder(lines, rules, n, m - 1);
      var short := NamesBefore(lines, rules, n);
      var mid := NamesBefore(lines, rules, m - 1);
      assert (mid + Found(lines, rules, m - 1))[..|short|] == mid[..|short|];
    }
  }

  // ---- _tracing_trace_decorator and __call__ on functions ----

  /**
   * A callable as the decorator sees it: a plain function, or the `wrapped_f` closure that
   * __call__ returns, which remembers its decorator's flag and the function it wraps.
   */
  datatype Callable =
    | Plain(name: string, qualname: string)
    | WrappedF(disableTracing: bool, fnName: string, fnQualname: string)

  const WrapperName: string := "wrapped_f"

  /** __name__: the closure is always called `wrapped_f`. */
  function NameOf(f: Callable): string
  {
    match f
    case Plain(n, _) => n
    case WrappedF(_, _, _) => WrapperName
  }

  /** _tracing_trace_decorator: recognises the wrapper by its name alone. */
  predicate IsTracingDecorator(f: Callable): (b: bool)
    ensures b <==> f.WrappedF? || f.name == WrapperName
  {
    NameOf(f) == WrapperName
  }

  /** An instance of Trace, with its disable_tracing argument. */
  datatype Trace = Trace(disableTracing: bool)

  /** __call__ applied to a function: the wrapper is returned unchanged, anything else gets wrapped. */
  function Decorate(t: Trace, f: Callable): (g: Callable)
    ensures IsTracingDecorator(f) ==> g == f
    ensures !IsTracingDecorator(f) ==> g == WrappedF(t.disableTracing, f.name, f.qualname)
  {
    if IsTracingDecorator(f) then f else WrappedF(t.disableTracing, f.name, f.qualname)
  }

  /** Decorating twice is decorating once: the first decorator's flag stays, the second changes nothing. */
  lemma DecorateIdempotent(t1: Trace, t2: Trace, f: Callable)
    ensures Decorate(t2, Decorate(t1, f)) == Decorate(t1, f)
  {
  }

  /** Decorate leaves `f` as it is exactly when `f` is named like the wrapper. */
  lemma DecorateFixed(t: Trace, f: Callable)
    ensures Decorate(t, f) == f <==> NameOf(f) == WrapperName
  {
  }

  // ---- wrapped_f at run time ----

  /** One call of `target`, whose function body in turn makes the calls `body`, in order. */
  datatype Call = Call(target: Callable, body: seq<Call>)

  /** The two request.environ flags: DISABLE_TRACING and DO_NOT_PROPAGATE_CONTEXT. */
  datatype Flags = Flags(disable: bool, doNotPropagate: bool)

  /** What a span is parented on: the context extracted from the inbound headers, or the current span. */
  datatype Parent = Upstream | CurrentSpan

  datatype PyEvent = SpanStart(name: string, parent: Parent) | SpanEnd(name: string)

  datatype Outcome = Outcome(events: seq<PyEvent>, flags: Flags)

  /** The span name: the request path and, in parentheses, the wrapped function's qualified name. */
  function SpanName(path: string, qualname: string): (n: string)
    ensures |n| == |path| + |qualname| + 3
    ensures n[..|path|] == path && n[|path|..|path| + 2] == " ("
    ensures n[|path| + 2..|n| - 1] == qualname && n[|n| - 1] == ')'
  {
    path + " (" + qualname + ")"
  }

  /**
   * The span events and the final flags of one call, made in a request for `path` when
   * `inRequest` holds, starting from the flags `st`. The flags are only ever set, never
   * cleared, and a call that opens a span leaves DO_NOT_PROPAGATE_CONTEXT set.
   */
  function RunCall(c: Call, path: string, inRequest: bool, st: Flags): (r: Outcome)
    decreases c, 1
    ensures st.disable ==> r.flags.disable
    ensures st.doNotPropagate ==> r.flags.doNotPropagate
    ensures r.events != [] ==> r.flags.doNotPropagate
  {
    match c.target
    case Plain(_, _) => RunPrefix(c, path, inRequest, st, |c.body|)
    case WrappedF(d, _, q) =>
      if !inRequest then RunPrefix(c, path, inRequest, st, |c.body|)
      else if d then RunPrefix(c, path, inRequest, st.(disable := true), |c.body|)
      else if st.disable then RunPrefix(c, path, inRequest, st, |c.body|)
      else
        var name := SpanName(path, q);
        var parent := if st.doNotPropagate then CurrentSpan else Upstream;
        var inner := RunPrefix(c, path, inRequest, st.(doNotPropagate := true), |c.body|);
        Outcome([SpanStart(name, parent)] + inner.events + [SpanEnd(name)], inner.flags)
  }

  /** The first n calls of c's body, in order, each starting from the flags the previous one left. */
  function RunPrefix(c: Call, path: string, inRequest: bool, st: Flags, n: nat): (r: Outcome)
    requires n <= |c.body|
    decreases c, 0, n
    ensures st.disable ==> r.flags.disable
    ensures st.doNotPropagate ==> r.flags.doNotPropagate
    ensures r.events != [] ==> r.flags.doNotPropagate
  {
    if n == 0 then Outcome([], st)
    else
      var before := RunPrefix(c, path, inRequest, st, n - 1);
      var last := RunCall(c.body[n - 1], path, inRequest, before.flags);
      Outcome(before.events + last.events, last.flags)
  }

  /** The Flask request: its path and the two environ flags. */
  class Request {
    const path: string
    var disableTracing: bool
    var doNotPropagate: bool

    constructor(path: string)
      ensures this.path == path && !disableTracing && !doNotPropagate
    {
      this.path := path;
      disableTracing := false;
      doNotPropagate := false;
    }
  }

  /** The tracer, as the log of span events it was given. */
  class Tracer {
    var log: seq<PyEvent>

    constructor()
      ensures log == []
    {
      log := [];
    }

    method StartSpan(name: string, parent: Parent)
      modifies this
      ensures log == old(log) + [SpanStart(name, parent)]
    {
      log := log + [SpanStart(name, parent)];
    }

    method EndSpan(name: string)
      modifies this
      ensures log == old(log) + [SpanEnd(name)]
    {
      log := log + [SpanEnd(name)];
    }
  }

  /** The flags of the request, or none set outside a request. */
  function FlagsOf(req: Request?): Flags
    reads req
  {
    if req == null then Flags(false, false) else Flags(req.disableTracing, req.doNotPropagate)
  }

  function PathOf(req: Request?): string
    reads req
  {
    if req == null then "" else req.path
  }

  /** Calls c.target: wrapped_f's decisions when it is the wrapper, then the function's body. */
  method Invoke(c: Call, req: Request?, tracer: Tracer)
    modifies req, tracer
    decreases c, 1
    ensures tracer.log == old(tracer.log) + RunCall(c, PathOf(req), req != null, old(FlagsOf(req))).events
    ensures FlagsOf(req) == RunCall(c, PathOf(req), req != null, old(FlagsOf(req))).flags
  {
    match c.target
    case Plain(_, _) =>
      InvokeBody(c, req, tracer);
    case WrappedF(d, _, q) =>
      if req == null {
        InvokeBody(c, req, tracer);
      } else if d {
        req.disableTracing := true;
        InvokeBody(c, req, tracer);
      } else if req.disableTracing {
        InvokeBody(c, req, tracer);
      } else {
        var name := SpanName(req.path, q);
        var parent := if req.doNotPropagate then CurrentSpan else Upstream;
        tracer.StartSpan(name, parent);
        req.doNotPropagate := true;
        InvokeBody(c, req, tracer);
        tracer.EndSpan(name);
      }
  }

  /** Runs the function body of c: each of its calls in turn. */
  method InvokeBody(c: Call, req: Request?, tracer: Tracer)
    modifies req, tracer
    decreases c, 0
    ensures tracer.log == old(tracer.log) + RunPrefix(c, PathOf(req), req != null, old(FlagsOf(req)), |c.body|).events
    ensures FlagsOf(req) == RunPrefix(c, PathOf(req), req != null, old(FlagsOf(req)), |c.body|).flags
  {
    ghost var path, st := PathOf(req), FlagsOf(req);
    for i := 0 to |c.body|
      invariant PathOf(req) == path
      invariant tracer.log == old(tracer.log) + RunPrefix(c, path, req != null, st, i).events
      invariant FlagsOf(req) == RunPrefix(c, path, req != null, st, i).flags
    {
      ghost var before := RunPrefix(c, path, req != null, st, i);
      Invoke(c.body[i], req, tracer);
      ghost var last := RunCall(c.body[i], path, req != null, before.flags);
      assert RunPrefix(c, path, req != null, st, i + 1) == Outcome(before.events + last.events, last.flags);
      assert tracer.log == old(tracer.log) + before.events + last.events;
    }
  }

  // ---- what the flags guarantee ----

  /** Outside a request nothing is traced and nothing changes. */
  lemma {:induction false} OutsideRequestInert(c: Call, path: string, st: Flags)
    ensures RunCall(c, path, false, st) == Outcome([], st)
    decreases c, 1
  {
    OutsideRequestPrefix(c, path, st, |c.body|);
  }

  lemma {:induction false} OutsideRequestPrefix(c: Call, path: string, st: Flags, n: nat)
    requires n <= |c.body|
    ensures RunPrefix(c, path, false, st, n) == Outcome([], st)
    decreases c, 0, n
  {
    if n > 0 {
      OutsideRequestPrefix(c, path, st, n - 1);
      OutsideRequestInert(c.body[n - 1], path, st);
    }
  }

  /** Once DISABLE_TRACING is set, nothing is traced and the flags stay as they are. */
  lemma {:induction false} DisabledInert(c: Call, path: string, inRequest: bool, st: Flags)
    requires st.disable
    ensures RunCall(c, path, inRequest, st) == Outcome([], st)
    decreases c, 1
  {
    assert st.(disable := true) == st;
    DisabledPrefix(c, path, inRequest, st, |c.body|);
  }

  lemma {:induction false} DisabledPrefix(c: Call, path: string, inRequest: bool, st: Flags, n: nat)
    requires st.disable && n <= |c.body|
    ensures RunPrefix(c, path, inRequest, st, n) == Outcome([], st)
    decreases c, 0, n
  {
    if n > 0 {
      DisabledPrefix(c, path, inRequest, st, n - 1);
      DisabledInert(c.body[n - 1], path, inRequest, st);
    }
  }

  /** A call through a wrapper with disable_tracing opens no span, and leaves DISABLE_TRACING set. */
  lemma DisablingCall(c: Call, path: string, st: Flags)
    requires c.target.WrappedF? && c.target.disableTracing
    ensures RunCall(c, path, true, st) == Outcome([], st.(disable := true))
  {
    DisabledPrefix(c, path, true, st.(disable := true), |c.body|);
  }

  /** No span event from position `from` on continues the upstream trace. */
  predicate NoUpstreamFrom(events: seq<PyEvent>, from: nat)
  {
    forall k :: from <= k < |events| ==> events[k] != SpanStart(events[k].name, Upstream)
  }

  /**
   * Only the first span of a request continues the upstream trace: no later event does, and
   * none at all once DO_NOT_PROPAGATE_CONTEXT is set.
   */
  lemma {:induction false} OnlyFirstSpanUpstream(c: Call, path: string, inRequest: bool, st: Flags)
    ensures NoUpstreamFrom(RunCall(c, path, inRequest, st).events, 1)
    ensures st.doNotPropagate ==> NoUpstreamFrom(RunCall(c, path, inRequest, st).events, 0)
    decreases c, 1
  {
    match c.target
    case Plain(_, _) => OnlyFirstSpanUpstreamPrefix(c, path, inRequest, st, |c.body|);
    case WrappedF(d, _, q) =>
      if !inRequest || st.disable {
        OnlyFirstSpanUpstreamPrefix(c, path, inRequest, st, |c.body|);
      } else if d {
        OnlyFirstSpanUpstreamPrefix(c, path, inRequest, st.(disable := true), |c.body|);
      } else {
        var inner := RunPrefix(c, path, inRequest, st.(doNotPropagate := true), |c.body|);
        OnlyFirstSpanUpstreamPrefix(c, path, inRequest, st.(doNotPropagate := true), |c.body|);
        var name := SpanName(path, q);
        var parent := if st.doNotPropagate then CurrentSpan else Upstream;
        var events := [SpanStart(name, parent)] + inner.events + [SpanEnd(name)];
        forall k | 1 <= k < |events| ensures events[k] != SpanStart(events[k].name, Upstream) {
          if k <= |inner.events| {
            assert events[k] == inner.events[k - 1];
          }
        }
      }
  }

  lemma {:induction false} OnlyFirstSpanUpstreamPrefix(c: Call, path: string, inRequest: bool, st: Flags, n: nat)
    requires n <= |c.body|
    ensures NoUpstreamFrom(RunPrefix(c, path, inRequest, st, n).events, 1)
    ensures st.doNotPropagate ==> NoUpstreamFrom(RunPrefix(c, path, inRequest, st, n).events, 0)
    decreases c, 0, n
  {
    if n > 0 {
      var before := RunPrefix(c, path, inRequest, st, n - 1);
      var last := RunCall(c.body[n - 1], path, inRequest, before.flags);
      OnlyFirstSpanUpstreamPrefix(c, path, inRequest, st, n - 1);
      OnlyFirstSpanUpstream(c.body[n - 1], path, inRequest, before.flags);
      var events := before.events + last.events;
      if before.events != [] {
        forall k | 1 <= k < |events| ensures events[k] != SpanStart(events[k].name, Upstream) {
          if k >= |before.events| {
            assert events[k] == last.events[k - |before.events|];
          }
        }
      } else {
        assert events == last.events;
      }
    }
  }

  /**
   * DISABLE_TRACING is never cleared, so a call through a disabling wrapper also silences every
   * later call of the same request, not only the calls beneath it.
   */
  lemma {:induction false} DisableSilencesLaterCalls(c: Call, path: string, st: Flags, j: nat, n: nat)
    requires j < n <= |c.body|
    requires c.body[j].target.WrappedF? && c.body[j].target.disableTracing
    ensures RunPrefix(c, path, true, st, n).events == RunPrefix(c, path, true, st, j + 1).events
    ensures RunPrefix(c, path, true, st, n).flags.disable
    decreases n
  {
    var before := RunPrefix(c, path, true, st, n - 1);
    if n == j + 1 {
      DisablingCall(c.body[j], path, before.flags);
    } else {
      DisableSilencesLaterCalls(c, path, st, j, n - 1);
      DisabledInert(c.body[n - 1], path, true, before.flags);
      assert before.events + [] == before.events;
    }
  }

  /** The span events seen as the name-only events of the span model. */
  function AsSpanEvents(events: seq<PyEvent>): (r: seq<SpanEvent>)
    ensures |r| == |events|
  {
    if events == [] then []
    else
      var e := events[0];
      [if e.SpanStart? then Start(e.name) else End(e.name)] + AsSpanEvents(events[1..])
  }

  lemma {:induction false} AsSpanEventsAppend(a: seq<PyEvent>, b: seq<PyEvent>)
    ensures AsSpanEvents(a + b) == AsSpanEvents(a) + AsSpanEvents(b)
  {
    if a != [] {
      assert (a + b)[0] == a[0];
      assert (a + b)[1..] == a[1..] + b;
      AsSpanEventsAppend(a[1..], b);
      var e := [if a[0].SpanStart? then Start(a[0].name) else End(a[0].name)];
      calc {
        AsSpanEvents(a + b);
        e + AsSpanEvents(a[1..] + b);
        e + (AsSpanEvents(a[1..]) + AsSpanEvents(b));
        (e + AsSpanEvents(a[1..])) + AsSpanEvents(b);
      }
    } else {
      assert a + b == b;
    }
  }

  /** Every span opened is closed, innermost first: the `with` block ends what it started. */
  lemma {:induction false} RunBalanced(c: Call, path: string, inRequest: bool, st: Flags)
    ensures Balanced(AsSpanEvents(RunCall(c, path, inRequest, st).events))
    decreases c, 1
  {
    match c.target
    case Plain(_, _) => RunPrefixBalanced(c, path, inRequest, st, |c.body|);
    case WrappedF(d, _, q) =>
      if !inRequest || st.disable {
        RunPrefixBalanced(c, path, inRequest, st, |c.body|);
      } else if d {
        RunPrefixBalanced(c, path, inRequest, st.(disable := true), |c.body|);
      } else {
        var inner := RunPrefix(c, path, inRequest, st.(doNotPropagate := true), |c.body|);
        RunPrefixBalanced(c, path, inRequest, st.(doNotPropagate := true), |c.body|);
        var name := SpanName(path, q);
        var parent := if st.doNotPropagate then CurrentSpan else Upstream;
        AsSpanEventsAppend([SpanStart(name, parent)] + inner.events, [SpanEnd(name)]);
        AsSpanEventsAppend([SpanStart(name, parent)], inner.events);
        assert AsSpanEvents([SpanStart(name, parent)]) == [Start(name)];
        assert AsSpanEvents([SpanEnd(name)]) == [End(name)];
        BracketBalanced(name, AsSpanEvents(inner.events));
      }
  }

  lemma {:induction false} RunPrefixBalanced(c: Call, path: string, inRequest: bool, st: Flags, n: nat)
    requires n <= |c.body|
    ensures Balanced(AsSpanEvents(RunPrefix(c, path, inRequest, st, n).events))
    decreases c, 0, n
  {
    if n == 0 {
      assert Balanced([]);
    } else {
      var before := RunPrefix(c, path, inRequest, st, n - 1);
      var last := RunCall(c.body[n - 1], path, inRequest, before.flags);
      RunPrefixBalanced(c, path, inRequest, st, n - 1);
      RunBalanced(c.body[n - 1], path, inRequest, before.flags);
      AppendBalanced(before.events, last.events);
    }
  }

  /** Two balanced runs one after the other are balanced. */
  lemma AppendBalanced(a: seq<PyEvent>, b: seq<PyEvent>)
    requires Balanced(AsSpanEvents(a)) && Balanced(AsSpanEvents(b))
    ensures Balanced(AsSpanEvents(a + b))
  {
    AsSpanEventsAppend(a, b);
    ConcatBalanced(AsSpanEvents(a), AsSpanEvents(b));
  }

  // ---- the suggestions view as traced ----

  /** A call of the get_suggestions_for_article method once the class decorator has wrapped it. */
  const LookupCall: Call :=
    Call(WrappedF(false, "get_suggestions_for_article", "SuggestionsService.get_suggestions_for_article"), [])

  /** The get_by_article_id view under @Trace(), calling the service once. */
  const ViewCall: Call := Call(WrappedF(false, "get_by_article_id", "get_by_article_id"), [LookupCall])

  /**
   * A fresh request to the view: the view's span continues the upstream trace, the service's
   * span nests inside it with the current span as parent, and DO_NOT_PROPAGATE_CONTEXT is left set.
   */
  lemma ViewRequestSpans(path: string)
    ensures RunCall(ViewCall, path, true, Flags(false, false)) ==
              Outcome([SpanStart(SpanName(path, "get_by_article_id"), Upstream),
                       SpanStart(SpanName(path, "SuggestionsService.get_suggestions_for_article"), CurrentSpan),
                       SpanEnd(SpanName(path, "SuggestionsService.get_suggestions_for_article")),
                       SpanEnd(SpanName(path, "get_by_article_id"))],
                      Flags(false, true))
  {
    var inner := RunCall(LookupCall, path, true, Flags(false, true));
    assert RunPrefix(LookupCall, path, true, Flags(false, true), 0) == Outcome([], Flags(false, true));
    assert inner.events == [SpanStart(SpanName(path, "SuggestionsService.get_suggestions_for_article"), CurrentSpan),
                            SpanEnd(SpanName(path, "SuggestionsService.get_suggestions_for_article"))];
    assert RunPrefix(ViewCall, path, true, Flags(false, true), 0) == Outcome([], Flags(false, true));
    assert RunPrefix(ViewCall, path, true, Flags(false, true), 1) == Outcome([] + inner.events, inner.flags);
  }

  /** The same request when the view is decorated with @Trace(disable_tracing=True): no span at all. */
  lemma DisabledViewRequest(path: string)
    ensures RunCall(ViewCall.(target := ViewCall.target.(disableTracing := true)), path, true, Flags(false, false)) ==
              Outcome([], Flags(true, false))
  {
    DisablingCall(ViewCall.(target := ViewCall.target.(disableTracing := true)), path, Flags(false, false));
  }
}
