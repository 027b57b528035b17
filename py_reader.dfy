/** read_instances of the Python code (python/include/read_instances.py): a
    loop over the stripped lines of an instance file that collects headers,
    parameter lines and value lines into InstanceData objects.  int() and
    attribute access on None can raise, and a raised exception ends the
    read; the model returns it as an Err. */
module PyReader {
  import opened Errors
  import opened Text
  import opened InstanceFile

  /** read_instances.InstanceData, whose attributes the reader assigns. */
  class InstanceData {
    var m: int
    var n: int
    var b: int
    var optimalSum: int
    var values: seq<int>

    /** InstanceData(): every number 0 and an empty list of values. */
    constructor ()
      ensures Contents() == Blank
    {
      m, n, b, optimalSum, values := 0, 0, 0, 0, [];
    }

    function Contents(): Instance
      reads this
    {
      Instance(m, n, b, optimalSum, values)
    }
  }

  /** The loop's variables between two lines (None for current is None). */
  datatype State = State(instances: seq<Instance>, current: Option<Instance>, readingValues: bool)

  const Start := State([], None, false)

  /** `if current and current.values: instances.append(current)`: the
      instance is kept when it holds any value, whatever its M. */
  function Finish(s: State): (r: seq<Instance>)
    ensures s.current.Some? && s.current.value.values != [] ==> r == s.instances + [s.current.value]
    ensures !(s.current.Some? && s.current.value.values != []) ==> r == s.instances
  {
    if s.current.Some? && s.current.value.values != [] then s.instances + [s.current.value] else s.instances
  }

  /** list(map(parse, tokens)): every token read by parse, or None as soon
      as one of them fails. */
  function MapAll(parse: string -> Option<int>, tokens: seq<string>): Option<seq<int>>
    decreases |tokens|
  {
    if tokens == [] then Some([])
    else
      match (parse(tokens[0]), MapAll(parse, tokens[1..]))
      case (Some(v), Some(vs)) => Some([v] + vs)
      case _ => None
  }

  /** list(map(int, tokens)), None where int() raises ValueError. */
  function PyParseAll(tokens: seq<string>): Option<seq<int>>
  {
    MapAll(PyParseInt, tokens)
  }

  /** The list holds one number for every token, read by parse. */
  lemma {:induction false} MapAllSome(parse: string -> Option<int>, tokens: seq<string>)
    requires MapAll(parse, tokens).Some?
    ensures |MapAll(parse, tokens).value| == |tokens|
    ensures forall i :: 0 <= i < |tokens| ==> parse(tokens[i]) == Some(MapAll(parse, tokens).value[i])
    decreases |tokens|
  {
    if tokens != [] {
      var rest := tokens[1..];
      MapAllSome(parse, rest);
      var vs := MapAll(parse, tokens).value;
      assert vs[1..] == MapAll(parse, rest).value;
      forall i | 0 <= i < |tokens| ensures parse(tokens[i]) == Some(vs[i]) {
        if i > 0 {
          assert tokens[i] == rest[i - 1] && vs[i] == vs[1..][i - 1];
        }
      }
    }
  }

  /** The failure comes exactly when parse fails on some token. */
  lemma {:induction false} MapAllNone(parse: string -> Option<int>, tokens: seq<string>)
    ensures MapAll(parse, tokens).None? <==> exists i :: 0 <= i < |tokens| && parse(tokens[i]).None?
    decreases |tokens|
  {
    if tokens != [] {
      var rest := tokens[1..];
      MapAllNone(parse, rest);
      if MapAll(parse, tokens).None? && parse(tokens[0]).Some? {
        var i :| 0 <= i < |rest| && parse(rest[i]).None?;
        assert tokens[i + 1] == rest[i];
      }
      if exists i :: 0 <= i < |tokens| && parse(tokens[i]).None? {
        var i :| 0 <= i < |tokens| && parse(tokens[i]).None?;
        if i > 0 {
          assert tokens[i] == rest[i - 1];
        }
      }
    }
  }

  /** Tokens that parse reads one by one give the list of those numbers. */
  lemma {:induction false} MapAllOf(parse: string -> Option<int>, tokens: seq<string>, vs: seq<int>)
    requires |tokens| == |vs| && forall i :: 0 <= i < |tokens| ==> parse(tokens[i]) == Some(vs[i])
    ensures MapAll(parse, tokens) == Some(vs)
    decreases |tokens|
  {
    if tokens != [] {
      assert forall i :: 0 <= i < |tokens| - 1 ==> tokens[1..][i] == tokens[i + 1] && vs[1..][i] == vs[i + 1];
      MapAllOf(parse, tokens[1..], vs[1..]);
      assert parse(tokens[0]) == Some(vs[0]);
      assert [vs[0]] + vs[1..] == vs;
    }
  }

  /** One pass of the loop on a line. */
  function Step(s: State, raw: string): (r: Result<State>)
    ensures r.Ok? ==> |s.instances| <= |r.value.instances| <= |s.instances| + 1
    ensures r.Ok? ==> r.value.instances[..|s.instances|] == s.instances
  {
    var line := Trim(PySpace, raw);
    if line == [] then Ok(s)
    else if "# Instance" <= line then Ok(State(Finish(s), Some(Blank), false))
    else if !s.readingValues && line[0] != '#' then ParamLine(s, line)
    else if s.readingValues then ValueLine(s, line)
    else Ok(s)
  }

  /** A parameter line with four or more tokens: int(parts[0]) is evaluated
      before the attribute is set on current, then the three others, in
      order; fewer tokens leave everything as it was. */
  function ParamLine(s: State, line: string): (r: Result<State>)
    ensures r.Ok? ==> r.value.instances == s.instances
  {
    var parts := Words(PySpace, line);
    if |parts| < 4 then Ok(s)
    else
      match PyParseInt(parts[0])
      case None => Err(ValueError)
      case Some(m) =>
        if s.current.None? then Err(AttributeError)
        else
          match (PyParseInt(parts[1]), PyParseInt(parts[2]), PyParseInt(parts[3]))
          case (Some(n), Some(b), Some(o)) =>
            Ok(State(s.instances, Some(s.current.value.(m := m, n := n, b := b, optimalSum := o)), true))
          case _ => Err(ValueError)
  }

  /** A value line: every token must be an integer, and they are appended to
      current.values. */
  function ValueLine(s: State, line: string): (r: Result<State>)
    ensures r.Ok? ==> r.value.instances == s.instances
  {
    match PyParseAll(Words(PySpace, line))
    case None => Err(ValueError)
    case Some(vs) =>
      if s.current.None? then Err(AttributeError)
      else Ok(s.(current := Some(s.current.value.(values := s.current.value.values + vs))))
  }

  /** The outcome so far, then one more line: an exception raised before is
      kept and the line is never read. */
  function Then(r: Result<State>, raw: string): Result<State>
  {
    match r
    case Err(e) => Err(e)
    case Ok(s) => Step(s, raw)
  }

  /** The loop run from state s over some lines. */
  function RunFrom(s: State, lines: seq<string>): Result<State>
    decreases |lines|
  {
    if lines == [] then Ok(s) else Then(RunFrom(s, lines[..|lines| - 1]), lines[|lines| - 1])
  }

  /** The outcome so far, then the loop over more lines. */
  function Continue(r: Result<State>, lines: seq<string>): Result<State>
  {
    match r
    case Err(e) => Err(e)
    case Ok(s) => RunFrom(s, lines)
  }

  /** What read_instances returns, or the exception it raises. */
  function Read(lines: seq<string>): Result<seq<Instance>>
  {
    match RunFrom(Start, lines)
    case Err(e) => Err(e)
    case Ok(s) => Ok(Finish(s))
  }

  lemma {:induction false} RunFromSnoc(s: State, lines: seq<string>, raw: string)
    ensures RunFrom(s, lines + [raw]) == Then(RunFrom(s, lines), raw)
  {
    assert (lines + [raw])[..|lines|] == lines;
  }

  lemma {:induction false} RunFromConcat(s: State, a: seq<string>, b: seq<string>)
    ensures RunFrom(s, a + b) == Continue(RunFrom(s, a), b)
    decreases |b|
  {
    if b == [] {
      assert a + b == a;
    } else {
      assert (a + b)[..|a + b| - 1] == a + b[..|b| - 1];
      RunFromConcat(s, a, b[..|b| - 1]);
      RawErrorThen(RunFrom(s, a), b);
    }
  }

  lemma {:induction false} RawErrorThen(r: Result<State>, b: seq<string>)
    requires b != []
    ensures Continue(r, b) == Then(Continue(r, b[..|b| - 1]), b[|b| - 1])
  {
  }

  /** What holds between two lines: values are read only into an instance,
      and every saved instance holds a value. */
  predicate Inv(s: State)
  {
    (s.readingValues ==> s.current.Some?) &&
    forall i :: 0 <= i < |s.instances| ==> s.instances[i].values != []
  }

  lemma {:induction false} StepKeepsInv(s: State, raw: string)
    requires Inv(s)
    ensures Step(s, raw).Ok? ==> Inv(Step(s, raw).value)
  {
  }

  lemma {:induction false} RunKeepsInv(s: State, lines: seq<string>)
    requires Inv(s)
    ensures RunFrom(s, lines).Ok? ==> Inv(RunFrom(s, lines).value)
    decreases |lines|
  {
    if lines != [] {
      var init := lines[..|lines| - 1];
      RunKeepsInv(s, init);
      if RunFrom(s, init).Ok? {
        StepKeepsInv(RunFrom(s, init).value, lines[|lines| - 1]);
      }
    }
  }

  /** Every instance returned holds at least one value; nothing ties the
      number of values to M. */
  lemma {:induction false} ReadNonEmpty(lines: seq<string>)
    ensures Read(lines).Ok? ==> forall i :: 0 <= i < |Read(lines).value| ==> Read(lines).value[i].values != []
  {
    RunKeepsInv(Start, lines);
  }

  /** An exception ends the read: whatever follows the line that raised it,
      read_instances raises the same exception. */
  lemma {:induction false} RaisedStays(a: seq<string>, b: seq<string>)
    requires RunFrom(Start, a).Err?
    ensures Read(a + b) == Err(RunFrom(Start, a).error)
  {
    RunFromConcat(Start, a, b);
  }

  /** Lines that are empty or white space after strip change nothing,
      wherever they occur. */
  lemma {:induction false} BlankLineIgnored(a: seq<string>, blank: string, b: seq<string>)
    requires Trim(PySpace, blank) == []
    ensures Read(a + [blank] + b) == Read(a + b)
  {
    RunFromConcat(Start, a + [blank], b);
    RunFromSnoc(Start, a, blank);
    RunFromConcat(Start, a, b);
  }

  /** A parameter-shaped line before any header assigns to an attribute of
      None: AttributeError when its first token is an integer, ValueError
      from int() otherwise. */
  lemma {:induction false} ParamsBeforeHeader(raw: string, rest: seq<string>)
    requires var line := Trim(PySpace, raw); line != [] && line[0] != '#' && |Words(PySpace, line)| >= 4
    ensures var first := Words(PySpace, Trim(PySpace, raw))[0];
      Read([raw] + rest) == Err(if PyParseInt(first).Some? then AttributeError else ValueError)
  {
    var line := Trim(PySpace, raw);
    assert "# Instance"[0] == '#';
    assert !("# Instance" <= line);
    RunFromSnoc(Start, [], raw);
    assert [] + [raw] == [raw];
    RaisedStays([raw], rest);
  }

  /** A written value line: strip leaves it, it is no header, and int() reads
      every token back, or raises ValueError when a number is beyond its
      digit limit. */
  lemma {:induction false} ValueLineShape(vs: seq<int>)
    requires vs != []
    ensures var line := Unwords(Numerals(vs));
      Trim(PySpace, line) == line && line != [] && line[0] != '#' &&
      PyParseAll(Words(PySpace, line)) == if Readable(vs) then Some(vs) else None
  {
    var line := Unwords(Numerals(vs));
    NumeralLinePlain(PySpace, vs);
    TrimUnchanged(PySpace, line);
    WordsOfNumerals(PySpace, vs);
    assert line[0] in line;
    ParsedNumerals(vs);
  }

  /** Every number of ns has at most PyMaxStrDigits digits. */
  predicate Readable(ns: seq<int>)
  {
    forall i :: 0 <= i < |ns| ==> DigitCount(ns[i]) <= PyMaxStrDigits
  }

  /** Every number of c, parameters and values, has at most PyMaxStrDigits
      digits. */
  predicate WithinDigitLimit(c: Instance)
  {
    Readable([c.m, c.n, c.b, c.optimalSum]) && Readable(c.values)
  }

  /** The printed tokens parse back to ns when every number is within
      int()'s digit limit, and raise ValueError otherwise. */
  lemma ParsedNumerals(ns: seq<int>)
    ensures PyParseAll(Numerals(ns)) == if Readable(ns) then Some(ns) else None
  {
    var ts := Numerals(ns);
    if Readable(ns) {
      forall i | 0 <= i < |ts| ensures PyParseInt(ts[i]) == Some(ns[i]) {
        PyParseIntShow(ns[i]);
      }
      MapAllOf(PyParseInt, ts, ns);
    } else {
      var i :| 0 <= i < |ns| && DigitCount(ns[i]) > PyMaxStrDigits;
      PyParseIntShow(ns[i]);
      MapAllNone(PyParseInt, ts);
    }
  }

  /** An instance whose numbers all fit a 32-bit int is within the digit
      limit. */
  lemma WritableWithinLimit(c: Instance)
    requires Writable(c)
    ensures WithinDigitLimit(c)
  {
    var ps := [c.m, c.n, c.b, c.optimalSum];
    forall i | 0 <= i < |ps| ensures DigitCount(ps[i]) <= PyMaxStrDigits {
      IntFitsPyDigits(ps[i]);
    }
    forall i | 0 <= i < |c.values| ensures DigitCount(c.values[i]) <= PyMaxStrDigits {
      IntFitsPyDigits(c.values[i]);
    }
  }

  lemma {:induction false} HeaderStep(s: State, id: nat)
    ensures Step(s, "# Instance " + IntToString(id)) == Ok(State(Finish(s), Some(Blank), false))
  {
    HeaderShape(PySpace, id);
    TrimUnchanged(PySpace, "# Instance " + IntToString(id));
  }

  lemma {:induction false} ParamsStep(acc: seq<Instance>, c: Instance)
    requires Readable([c.m, c.n, c.b, c.optimalSum])
    ensures Step(State(acc, Some(Blank), false), Unwords(Numerals([c.m, c.n, c.b, c.optimalSum])))
         == Ok(State(acc, Some(c.(values := [])), true))
  {
    var ns := [c.m, c.n, c.b, c.optimalSum];
    var line := Unwords(Numerals(ns));
    ValueLineShape(ns);
    assert "# Instance"[0] == '#';
    assert !("# Instance" <= line);
    ParamsParsed(State(acc, Some(Blank), false), line, c);
  }

  /** A parameter line whose first four tokens are c's numbers sets them on
      the current instance. */
  lemma {:induction false} ParamsParsed(s: State, line: string, c: Instance)
    requires s.current == Some(Blank)
    requires PyParseAll(Words(PySpace, line)) == Some([c.m, c.n, c.b, c.optimalSum])
    ensures ParamLine(s, line) == Ok(State(s.instances, Some(c.(values := [])), true))
  {
    var parts := Words(PySpace, line);
    MapAllSome(PyParseInt, parts);
    assert PyParseInt(parts[0]) == Some(c.m) && PyParseInt(parts[1]) == Some(c.n);
    assert PyParseInt(parts[2]) == Some(c.b) && PyParseInt(parts[3]) == Some(c.optimalSum);
  }

  /** A value line holding a number of more than PyMaxStrDigits digits
      raises ValueError, which ends the read. */
  lemma {:induction false} ValuesBeyondLimit(acc: seq<Instance>, c: Instance, vs: seq<int>)
    requires vs != [] && !Readable(vs)
    ensures Step(State(acc, Some(c), true), Unwords(Numerals(vs))) == Err(ValueError)
  {
    ValueLineShape(vs);
  }

  lemma {:induction false} ValuesStep(acc: seq<Instance>, c: Instance)
    requires c.values != [] && Readable(c.values)
    ensures Step(State(acc, Some(c.(values := [])), true), Unwords(Numerals(c.values))) == Ok(State(acc, Some(c), true))
  {
    var s := State(acc, Some(c.(values := [])), true);
    var line := Unwords(Numerals(c.values));
    ValueLineShape(c.values);
    assert Step(s, line) == ValueLine(s, line);
    assert [] + c.values == c.values;
  }

  lemma {:induction false} RunFour(s: State, a: string, b: string, c: string, d: string)
    ensures RunFrom(s, [a, b, c, d]) == Then(Then(Then(Then(Ok(s), a), b), c), d)
  {
    RunFromSnoc(s, [], a);
    RunFromSnoc(s, [a], b);
    RunFromSnoc(s, [a, b], c);
    RunFromSnoc(s, [a, b, c], d);
    assert [] + [a] == [a] && [a] + [b] == [a, b];
    assert [a, b] + [c] == [a, b, c] && [a, b, c] + [d] == [a, b, c, d];
  }

  /** One generated block: the instance is pending until the next header or
      the end of the file saves it. */
  lemma {:induction false} BlockRead(s: State, id: nat, c: Instance)
    requires c.values != [] && WithinDigitLimit(c)
    ensures RunFrom(s, Block(id, c)) == Ok(State(Finish(s), Some(c), true))
  {
    var bl := Block(id, c);
    HeaderStep(s, id);
    ParamsStep(Finish(s), c);
    ValuesStep(Finish(s), c);
    assert Step(State(Finish(s), Some(c), true), "") == Ok(State(Finish(s), Some(c), true));
    RunFour(s, bl[0], bl[1], bl[2], bl[3]);
  }

  lemma {:induction false} RenderRead(s: State, first: nat, cs: seq<Instance>)
    requires forall i :: 0 <= i < |cs| ==> cs[i].values != [] && WithinDigitLimit(cs[i])
    ensures RunFrom(s, Render(first, cs)).Ok?
    ensures Finish(RunFrom(s, Render(first, cs)).value) == Finish(s) + cs
    decreases |cs|
  {
    if cs == [] {
      assert Finish(s) + cs == Finish(s);
    } else {
      var s1 := State(Finish(s), Some(cs[0]), true);
      BlockRead(s, first, cs[0]);
      RenderRead(s1, first + 1, cs[1..]);
      BlockThenRest(s, first, cs, s1);
    }
  }

  lemma {:induction false} BlockThenRest(s: State, first: nat, cs: seq<Instance>, s1: State)
    requires cs != [] && RunFrom(s, Block(first, cs[0])) == Ok(s1) && Finish(s1) == Finish(s) + [cs[0]]
    requires RunFrom(s1, Render(first + 1, cs[1..])).Ok?
    requires Finish(RunFrom(s1, Render(first + 1, cs[1..])).value) == Finish(s1) + cs[1..]
    ensures RunFrom(s, Render(first, cs)).Ok?
    ensures Finish(RunFrom(s, Render(first, cs)).value) == Finish(s) + cs
  {
    ConsSplit(Finish(s), cs);
    RenderCons(first, cs);
    RunFromConcat(s, Block(first, cs[0]), Render(first + 1, cs[1..]));
  }

  /** Reading a file the generators wrote gives back its instances, in order,
      as long as each holds a value and its numbers are within int()'s digit
      limit; the values need not number M, nor fit an int. */
  lemma {:induction false} ReadRendered(cs: seq<Instance>)
    requires forall i :: 0 <= i < |cs| ==> cs[i].values != [] && WithinDigitLimit(cs[i])
    ensures Read(Render(1, cs)) == Ok(cs)
  {
    RenderRead(Start, 1, cs);
    assert [] + cs == cs;
  }

  /** How the objects stand for the loop's variables: the list's objects hold
      the saved instances, current is None exactly when the model's is, and
      the object being read is not in the list. */
  predicate Mirrors(instances: seq<InstanceData>, current: InstanceData?, readingValues: bool, s: State)
    reads instances, current
  {
    |instances| == |s.instances| &&
    (forall i :: 0 <= i < |instances| ==> instances[i].Contents() == s.instances[i]) &&
    (current == null <==> s.current.None?) &&
    (current != null ==> current.Contents() == s.current.value && current !in instances) &&
    readingValues == s.readingValues
  }

  /** The body of the for loop for one line; an exception comes back as
      raised. */
  method HandleLine(instances: seq<InstanceData>, current: InstanceData?, readingValues: bool, raw: string, ghost s: State)
      returns (raised: Option<Error>, instances': seq<InstanceData>, current': InstanceData?, readingValues': bool)
    requires Mirrors(instances, current, readingValues, s)
    modifies current
    ensures current' == null || current' == current || fresh(current')
    ensures raised.Some? <==> Step(s, raw).Err?
    ensures raised.Some? ==> raised.value == Step(s, raw).error
    ensures raised.None? ==> Mirrors(instances', current', readingValues', Step(s, raw).value)
  {
    raised, instances', current', readingValues' := None, instances, current, readingValues;
    var line := Trim(PySpace, raw);
    if line == [] {
      return;
    }
    if "# Instance" <= line {
      instances' := instances;
      if current != null && current.values != [] {
        instances' := instances + [current];
      }
      current' := new InstanceData();
      readingValues' := false;
      return;
    }
    if !readingValues && line[0] != '#' {
      raised, readingValues' := HandleParams(instances, current, line, s);
    } else if readingValues {
      raised := HandleValues(instances, current, line, s);
    }
  }

  /** `current.M = int(parts[0])` and the three assignments after it. */
  method HandleParams(instances: seq<InstanceData>, current: InstanceData?, line: string, ghost s: State)
      returns (raised: Option<Error>, readingValues': bool)
    requires Mirrors(instances, current, false, s) && line != []
    modifies current
    ensures raised.Some? <==> ParamLine(s, line).Err?
    ensures raised.Some? ==> raised.value == ParamLine(s, line).error
    ensures raised.None? ==> Mirrors(instances, current, readingValues', ParamLine(s, line).value)
  {
    raised, readingValues' := None, false;
    var parts := Words(PySpace, line);
    if |parts| >= 4 {
      var m := PyParseInt(parts[0]);
      if m.None? {
        return Some(ValueError), false;
      }
      if current == null {
        return Some(AttributeError), false;
      }
      current.m := m.value;
      var n := PyParseInt(parts[1]);
      if n.None? {
        return Some(ValueError), false;
      }
      current.n := n.value;
      var b := PyParseInt(parts[2]);
      if b.None? {
        return Some(ValueError), false;
      }
      current.b := b.value;
      var o := PyParseInt(parts[3]);
      if o.None? {
        return Some(ValueError), false;
      }
      current.optimalSum := o.value;
      readingValues' := true;
      assert ParamLine(s, line) == Ok(State(s.instances, Some(s.current.value.(m := m.value, n := n.value, b := b.value, optimalSum := o.value)), true));
    }
  }

  /** `values = list(map(int, line.split()))`, then
      `current.values.extend(values)`. */
  method HandleValues(instances: seq<InstanceData>, current: InstanceData?, line: string, ghost s: State)
      returns (raised: Option<Error>)
    requires Mirrors(instances, current, true, s)
    modifies current
    ensures raised.Some? <==> ValueLine(s, line).Err?
    ensures raised.Some? ==> raised.value == ValueLine(s, line).error
    ensures raised.None? ==> Mirrors(instances, current, true, ValueLine(s, line).value)
  {
    var values := PyParseAll(Words(PySpace, line));
    if values.None? {
      return Some(ValueError);
    }
    if current == null {
      return Some(AttributeError);
    }
    current.values := current.values + values.value;
    return None;
  }

  /** read_instances over the lines of the file. */
  method ReadInstances(lines: seq<string>) returns (r: Result<seq<InstanceData>>)
    ensures r.Err? <==> Read(lines).Err?
    ensures r.Err? ==> r.error == Read(lines).error
    ensures r.Ok? ==> |r.value| == |Read(lines).value|
    ensures r.Ok? ==> forall i :: 0 <= i < |r.value| ==> r.value[i].Contents() == Read(lines).value[i]
  {
    var instances: seq<InstanceData> := [];
    var current: InstanceData? := null;
    var readingValues := false;
    var t := 0;
    while t < |lines|
      invariant 0 <= t <= |lines| && RunFrom(Start, lines[..t]).Ok?
      invariant Mirrors(instances, current, readingValues, RunFrom(Start, lines[..t]).value)
      invariant current == null || fresh(current)
    {
      ghost var s := RunFrom(Start, lines[..t]).value;
      StepAt(lines, t, s);
      var raised;
      raised, instances, current, readingValues := HandleLine(instances, current, readingValues, lines[t], s);
      if raised.Some? {
        RaisedAt(lines, t);
        return Err(raised.value);
      }
      t := t + 1;
    }
    assert lines[..t] == lines;
    var saved := SaveLast(instances, current, readingValues, RunFrom(Start, lines).value);
    return Ok(saved);
  }

  /** The loop after line t is the loop up to it, then line t. */
  lemma {:induction false} StepAt(lines: seq<string>, t: nat, s: State)
    requires t < |lines| && RunFrom(Start, lines[..t]) == Ok(s)
    ensures RunFrom(Start, lines[..t + 1]) == Step(s, lines[t])
  {
    assert lines[..t + 1][..t] == lines[..t];
  }

  /** Line t raised: so does the whole read. */
  lemma {:induction false} RaisedAt(lines: seq<string>, t: nat)
    requires t < |lines| && RunFrom(Start, lines[..t + 1]).Err?
    ensures Read(lines) == Err(RunFrom(Start, lines[..t + 1]).error)
  {
    RaisedStays(lines[..t + 1], lines[t + 1..]);
    assert lines[..t + 1] + lines[t + 1..] == lines;
  }

  /** `if current and current.values: instances.append(current)` after the
      loop. */
  method SaveLast(instances: seq<InstanceData>, current: InstanceData?, readingValues: bool, ghost s: State)
      returns (instances': seq<InstanceData>)
    requires Mirrors(instances, current, readingValues, s)
    ensures |instances'| == |Finish(s)|
    ensures forall i :: 0 <= i < |instances'| ==> instances'[i].Contents() == Finish(s)[i]
  {
    instances' := instances;
    if current != null && current.values != [] {
      instances' := instances + [current];
    }
  }
}
