/** ReadInstances.parseInstances of the Java code
    (java/src/utils/ReadInstances.java): a loop over the lines of an instance
    file that collects "# ..." headers, "M N B OPT" parameter lines and lines
    of values into InstanceData objects.  The file is given as its lines,
    without their terminators. */
module JavaReader {
  import opened Errors
  import opened Text
  import opened InstanceFile

  /** ReadInstances.InstanceData, whose public fields the reader assigns. */
  class InstanceData {
    var m: int
    var n: int
    var b: int
    var optimalSum: int
    var values: seq<int>

    constructor ()
      ensures Contents() == Blank
    {
      m, n, b, optimalSum, values := 0, 0, 0, 0, [];
    }

    function Contents(): Instance
      reads this
    {
      Instance(m, n, b, optimalSum, values)
    }
  }

  /** The loop's variables between two lines: the list of instances, the
      instance being read (null as None) and expectingValues. */
  datatype State = State(instances: seq<Instance>, current: Option<Instance>, expectingValues: bool)

  const Start := State([], None, false)

  /** The test that saves a pending instance at a header and at the end of
      the file: M > 0 and as many values as M. */
  predicate Complete(c: Instance)
  {
    c.m > 0 && |c.values| == c.m
  }

  /** The four Integer.parseInt calls of a parameter line, in order; None when
      one of them throws. */
  function ParseParams(parts: seq<string>): (r: Option<(int, int, int, int)>)
    requires |parts| >= 4
    ensures r.Some? ==> InInt(r.value.0) && InInt(r.value.1) && InInt(r.value.2) && InInt(r.value.3)
  {
    match (JavaParseInt(parts[0]), JavaParseInt(parts[1]), JavaParseInt(parts[2]), JavaParseInt(parts[3]))
    case (Some(m), Some(n), Some(b), Some(o)) => Some((m, n, b, o))
    case _ => None
  }

  /** The values a line's tokens add: each token trimmed, empty ones skipped,
      and those Integer.parseInt rejects skipped silently. */
  function ParsedValues(tokens: seq<string>): (vs: seq<int>)
    ensures |vs| <= |tokens| && forall i :: 0 <= i < |vs| ==> InInt(vs[i])
    decreases |tokens|
  {
    if tokens == [] then []
    else
      var vs := ParsedValues(tokens[..|tokens| - 1]);
      var t := Trim(JavaTrimSpace, tokens[|tokens| - 1]);
      if t == [] then vs
      else
        match JavaParseInt(t)
        case None => vs
        case Some(v) => vs + [v]
  }

  /** One pass of the loop on a line.  Only appends to the list, and whatever
      it appends holds as many values as its M. */
  function Step(s: State, raw: string): (r: State)
    ensures |s.instances| <= |r.instances| <= |s.instances| + 1
    ensures r.instances[..|s.instances|] == s.instances
    ensures forall i :: |s.instances| <= i < |r.instances| ==> |r.instances[i].values| == r.instances[i].m
  {
    var line := Trim(JavaTrimSpace, raw);
    if line == [] then s
    else if line[0] == '#' then HeaderLine(s)
    else if s.current.None? then s
    else if !s.expectingValues && s.current.value.m == 0 then ParamLine(s, line)
    else if s.expectingValues then ValueLine(s, line)
    else s
  }

  /** A line starting with '#': save the pending instance when complete, and
      start a blank one. */
  function HeaderLine(s: State): (r: State)
    ensures r.current == Some(Blank) && !r.expectingValues
    ensures r.instances == s.instances || (s.current.Some? && r.instances == s.instances + [s.current.value] && Complete(s.current.value))
  {
    var saved := if s.current.Some? && Complete(s.current.value) then s.instances + [s.current.value] else s.instances;
    State(saved, Some(Blank), false)
  }

  /** The parameter line of an instance: with four or more tokens, M, N, B and
      optimalSum are parsed and values are expected, or the instance is
      dropped when one of them is not an int; with fewer nothing happens. */
  function ParamLine(s: State, line: string): (r: State)
    requires s.current.Some?
    ensures r.instances == s.instances
  {
    // Words equals split("\s+") here: the trimmed line neither starts nor
    // ends with a separator.
    var parts := Words(AsciiSpace, line);
    if |parts| < 4 then s
    else
      match ParseParams(parts)
      case None => State(s.instances, None, s.expectingValues)
      case Some((m, n, b, o)) => State(s.instances, Some(Instance(m, n, b, o, s.current.value.values)), true)
  }

  /** A value line: its ints are added, and the instance is saved the moment
      it holds M values. */
  function ValueLine(s: State, line: string): (r: State)
    requires s.current.Some?
    ensures r.instances == s.instances || (|r.instances| == |s.instances| + 1 && r.instances[..|s.instances|] == s.instances)
    ensures |r.instances| == |s.instances| + 1 ==> |r.instances[|s.instances|].values| == r.instances[|s.instances|].m
  {
    var c := s.current.value;
    var c' := c.(values := c.values + ParsedValues(Words(AsciiSpace, line)));
    if |c'.values| == c'.m then State(s.instances + [c'], None, false)
    else State(s.instances, Some(c'), true)
  }

  /** The loop run from state s over some lines. */
  function RunFrom(s: State, lines: seq<string>): State
    decreases |lines|
  {
    if lines == [] then s else Step(RunFrom(s, lines[..|lines| - 1]), lines[|lines| - 1])
  }

  /** The list parseInstances returns: the loop's, plus the pending instance
      when the final check finds it complete. */
  function Read(lines: seq<string>): seq<Instance>
  {
    Finish(RunFrom(Start, lines))
  }

  /** The check after the loop. */
  function Finish(s: State): seq<Instance>
  {
    if s.current.Some? && Complete(s.current.value) then s.instances + [s.current.value] else s.instances
  }

  /** What holds between two lines: every saved instance has as many values as
      its M; an instance read since a header and not yet expecting values is
      still blank; and a pending instance with M > 0 never has exactly M
      values (it would have been saved the moment it had). */
  predicate Inv(s: State)
  {
    (forall i :: 0 <= i < |s.instances| ==> |s.instances[i].values| == s.instances[i].m) &&
    (s.expectingValues ==> s.current.Some?) &&
    (s.current.Some? && !s.expectingValues ==> s.current.value == Blank) &&
    (s.current.Some? && s.current.value.m > 0 ==> |s.current.value.values| != s.current.value.m)
  }

  lemma StepKeepsInv(s: State, raw: string)
    requires Inv(s)
    ensures Inv(Step(s, raw))
  {
    var line := Trim(JavaTrimSpace, raw);
    if line != [] && line[0] != '#' && s.current.Some? && !s.expectingValues && s.current.value.m == 0 {
      assert s.current.value.values == [];
    }
  }

  /** The loop over the lines so far, then one more line. */
  lemma RunFromSnoc(s: State, lines: seq<string>, raw: string)
    ensures RunFrom(s, lines + [raw]) == Step(RunFrom(s, lines), raw)
  {
    assert (lines + [raw])[..|lines|] == lines;
  }

  lemma {:induction false} RunKeepsInv(s: State, lines: seq<string>)
    requires Inv(s)
    ensures Inv(RunFrom(s, lines))
    decreases |lines|
  {
    if lines != [] {
      RunKeepsInv(s, lines[..|lines| - 1]);
      StepKeepsInv(RunFrom(s, lines[..|lines| - 1]), lines[|lines| - 1]);
    }
  }

  /** The two saves guarded by M > 0 && size == M never fire: a header line
      only ever starts a blank instance, and the list returned is the one the
      loop built. */
  lemma SavesNeverFire(lines: seq<string>, s: State, raw: string)
    requires Inv(s) && Trim(JavaTrimSpace, raw) != [] && Trim(JavaTrimSpace, raw)[0] == '#'
    ensures Step(s, raw) == State(s.instances, Some(Blank), false)
    ensures Read(lines) == RunFrom(Start, lines).instances
  {
    RunKeepsInv(Start, lines);
  }

  /** Every instance returned has exactly M values, and M is not negative. */
  lemma ReadComplete(lines: seq<string>)
    ensures forall i :: 0 <= i < |Read(lines)| ==> |Read(lines)[i].values| == Read(lines)[i].m >= 0
  {
    RunKeepsInv(Start, lines);
  }

  /** Instances come back in file order: the list after any prefix of the
      lines is a prefix of the list after all of them. */
  lemma {:induction false} RunPrefix(s: State, lines: seq<string>, t: nat)
    requires t <= |lines|
    ensures var p := RunFrom(s, lines[..t]).instances; var q := RunFrom(s, lines).instances;
      |p| <= |q| && q[..|p|] == p
    decreases |lines| - t
  {
    if t < |lines| {
      RunPrefix(s, lines, t + 1);
      assert lines[..t + 1][..t] == lines[..t];
    } else {
      assert lines[..t] == lines;
    }
  }

  /** Running the loop over two stretches of lines is running it over the
      second from where the first left off. */
  lemma {:induction false} RunFromConcat(s: State, a: seq<string>, b: seq<string>)
    ensures RunFrom(s, a + b) == RunFrom(RunFrom(s, a), b)
    decreases |b|
  {
    if b == [] {
      assert a + b == a;
    } else {
      assert (a + b)[..|a + b| - 1] == a + b[..|b| - 1];
      RunFromConcat(s, a, b[..|b| - 1]);
    }
  }

  /** Lines that are empty or white space after trim change nothing,
      wherever they occur. */
  lemma BlankLineIgnored(a: seq<string>, blank: string, b: seq<string>)
    requires Trim(JavaTrimSpace, blank) == []
    ensures Read(a + [blank] + b) == Read(a + b)
  {
    RunFromConcat(Start, a + [blank], b);
    RunFromConcat(Start, a, [blank]);
    RunFromConcat(Start, a, b);
    assert [blank][..0] == [];
  }

  /** A line that is blank or does not start with '#' after trim. */
  predicate NotHeader(raw: string)
  {
    Trim(JavaTrimSpace, raw) == [] || Trim(JavaTrimSpace, raw)[0] != '#'
  }

  /** With no instance being read (before the first header, or after a
      value line closed one and set current to null) a line that is not a
      header changes nothing. */
  lemma NoCurrentStep(s: State, raw: string)
    requires s.current.None? && NotHeader(raw)
    ensures Step(s, raw) == s
  {
  }

  /** The same over a run of such lines. */
  lemma {:induction false} NoCurrentIgnored(s: State, pre: seq<string>)
    requires s.current.None?
    requires forall j :: 0 <= j < |pre| ==> NotHeader(pre[j])
    ensures RunFrom(s, pre) == s
    decreases |pre|
  {
    if pre != [] {
      NoCurrentIgnored(s, pre[..|pre| - 1]);
      NoCurrentStep(s, pre[|pre| - 1]);
    }
  }

  /** Lines before the first header are ignored. */
  lemma LeadingLinesIgnored(pre: seq<string>, rest: seq<string>)
    requires forall j :: 0 <= j < |pre| ==> NotHeader(pre[j])
    ensures Read(pre + rest) == Read(rest)
  {
    NoCurrentIgnored(Start, pre);
    RunFromConcat(Start, pre, rest);
  }

  /** Lines after an instance was closed by its value line, up to the next
      header, are ignored as well. */
  lemma ClosedLinesIgnored(a: seq<string>, pre: seq<string>, rest: seq<string>)
    requires RunFrom(Start, a).current.None?
    requires forall j :: 0 <= j < |pre| ==> NotHeader(pre[j])
    ensures Read(a + pre + rest) == Read(a + rest)
  {
    NoCurrentIgnored(RunFrom(Start, a), pre);
    RunFromConcat(Start, a + pre, rest);
    RunFromConcat(Start, a, pre);
    RunFromConcat(Start, a, rest);
  }

  lemma HeaderStep(s: State, id: nat)
    requires Inv(s)
    ensures Step(s, "# Instance " + IntToString(id)) == State(s.instances, Some(Blank), false)
  {
    HeaderShape(JavaTrimSpace, id);
    TrimUnchanged(JavaTrimSpace, "# Instance " + IntToString(id));
  }

  lemma ParamsStep(acc: seq<Instance>, c: Instance)
    requires InInt(c.m) && InInt(c.n) && InInt(c.b) && InInt(c.optimalSum)
    ensures Step(State(acc, Some(Blank), false), Unwords(Numerals([c.m, c.n, c.b, c.optimalSum])))
         == State(acc, Some(c.(values := [])), true)
  {
    var ns := [c.m, c.n, c.b, c.optimalSum];
    var line := Unwords(Numerals(ns));
    var parts := Numerals(ns);
    NumeralLinePlain(JavaTrimSpace, ns);
    UnwordsEnds(parts);
    TrimUnchanged(JavaTrimSpace, line);
    ParamsParsed(c);
  }

  /** The parameter line of a written instance sets exactly its numbers. */
  lemma ParamsParsed(c: Instance)
    requires InInt(c.m) && InInt(c.n) && InInt(c.b) && InInt(c.optimalSum)
    ensures ParamLine(State([], Some(Blank), false), Unwords(Numerals([c.m, c.n, c.b, c.optimalSum]))).current
         == Some(c.(values := []))
    ensures forall acc ::
      ParamLine(State(acc, Some(Blank), false), Unwords(Numerals([c.m, c.n, c.b, c.optimalSum])))
      == State(acc, Some(c.(values := [])), true)
  {
    var ns := [c.m, c.n, c.b, c.optimalSum];
    WordsOfNumerals(AsciiSpace, ns);
    JavaParseIntShow(c.m);
    JavaParseIntShow(c.n);
    JavaParseIntShow(c.b);
    JavaParseIntShow(c.optimalSum);
  }

  /** Trimming a numeral leaves it, and Integer.parseInt reads it back. */
  lemma {:induction false} ParsedNumerals(ns: seq<int>)
    requires forall i :: 0 <= i < |ns| ==> InInt(ns[i])
    ensures ParsedValues(Numerals(ns)) == ns
    decreases |ns|
  {
    if ns != [] {
      var last := |ns| - 1;
      var init := ns[..last];
      NumeralsSnoc(ns);
      ParsedNumerals(init);
      ParsedNumeralSnoc(Numerals(init), ns[last]);
      InitLast(ns);
    }
  }

  lemma InitLast(ns: seq<int>)
    requires ns != []
    ensures ns[..|ns| - 1] + [ns[|ns| - 1]] == ns
  {
  }

  /** A numeral at the end of a value line adds its number last. */
  lemma ParsedNumeralSnoc(ts: seq<string>, n: int)
    requires InInt(n)
    ensures ParsedValues(ts + [IntToString(n)]) == ParsedValues(ts) + [n]
  {
    assert (ts + [IntToString(n)])[..|ts|] == ts;
    ParsedNumeral(n);
  }

  lemma ParsedNumeral(n: int)
    requires InInt(n)
    ensures JavaParseInt(Trim(JavaTrimSpace, IntToString(n))) == Some(n) && Trim(JavaTrimSpace, IntToString(n)) != []
  {
    var t := IntToString(n);
    NumeralPlain(JavaTrimSpace, t);
    TrimUnchanged(JavaTrimSpace, t);
    JavaParseIntShow(n);
  }

  lemma ValuesStep(acc: seq<Instance>, c: Instance)
    requires Writable(c)
    ensures Step(State(acc, Some(c.(values := [])), true), Unwords(Numerals(c.values))) == State(acc + [c], None, false)
  {
    var line := Unwords(Numerals(c.values));
    NumeralLinePlain(JavaTrimSpace, c.values);
    TrimUnchanged(JavaTrimSpace, line);
    WordsOfNumerals(AsciiSpace, c.values);
    ParsedNumerals(c.values);
    LastValueLine(acc, c, line);
  }

  lemma LastValueLine(acc: seq<Instance>, c: Instance, line: string)
    requires c.m == |c.values| > 0
    requires line != [] && Trim(JavaTrimSpace, line) == line && '#' !in line
    requires ParsedValues(Words(AsciiSpace, line)) == c.values
    ensures Step(State(acc, Some(c.(values := [])), true), line) == State(acc + [c], None, false)
  {
    assert line[0] in line;
    assert [] + c.values == c.values;
  }

  lemma EmptyStep(s: State)
    ensures Step(s, "") == s
  {
  }

  /** One generated block is read as exactly its instance. */
  lemma BlockRead(acc: seq<Instance>, id: nat, c: Instance)
    requires Writable(c) && forall i :: 0 <= i < |acc| ==> |acc[i].values| == acc[i].m
    ensures RunFrom(State(acc, None, false), Block(id, c)) == State(acc + [c], None, false)
  {
    var s0 := State(acc, None, false);
    var bl := Block(id, c);
    HeaderStep(s0, id);
    ParamsStep(acc, c);
    ValuesStep(acc, c);
    EmptyStep(State(acc + [c], None, false));
    RunFour(s0, bl[0], bl[1], bl[2], bl[3]);
  }

  /** A block whose optimalSum does not fit an int: Integer.parseInt throws
      on the parameter line, so current becomes null, and the value line and
      the empty line after it are skipped.  The block leaves the loop's
      variables as it found them. */
  lemma BlockBeyondIntDropped(acc: seq<Instance>, id: nat, c: Instance)
    requires Inv(State(acc, None, false))
    requires InInt(c.m) && InInt(c.n) && InInt(c.b) && !InInt(c.optimalSum)
    ensures RunFrom(State(acc, None, false), Block(id, c)) == State(acc, None, false)
  {
    var s0 := State(acc, None, false);
    var bl := Block(id, c);
    HeaderStep(s0, id);
    ParamsBeyondInt(acc, c);
    ValuesSkipped(acc, c.values);
    EmptyStep(s0);
    RunFour(s0, bl[0], bl[1], bl[2], bl[3]);
  }

  /** The parameter line of such a block drops the instance. */
  lemma ParamsBeyondInt(acc: seq<Instance>, c: Instance)
    requires InInt(c.m) && InInt(c.n) && InInt(c.b) && !InInt(c.optimalSum)
    ensures Step(State(acc, Some(Blank), false), Unwords(Numerals([c.m, c.n, c.b, c.optimalSum]))) == State(acc, None, false)
  {
    var ns := [c.m, c.n, c.b, c.optimalSum];
    var line := Unwords(Numerals(ns));
    NumeralLinePlain(JavaTrimSpace, ns);
    TrimUnchanged(JavaTrimSpace, line);
    assert line[0] in line;
    WordsOfNumerals(AsciiSpace, ns);
    JavaParseIntShow(c.optimalSum);
  }

  /** With current null, a line of numerals changes nothing. */
  lemma ValuesSkipped(acc: seq<Instance>, vs: seq<int>)
    ensures Step(State(acc, None, false), Unwords(Numerals(vs))) == State(acc, None, false)
  {
    var line := Unwords(Numerals(vs));
    NumeralLinePlain(JavaTrimSpace, vs);
    TrimUnchanged(JavaTrimSpace, line);
    if line != [] {
      assert line[0] in line;
    }
    NoCurrentStep(State(acc, None, false), line);
  }

  /** Such a block drops out of what parseInstances returns: the file reads
      as if the block were not there. */
  lemma ReadSkipsBeyondInt(id: nat, c: Instance, rest: seq<string>)
    requires InInt(c.m) && InInt(c.n) && InInt(c.b) && !InInt(c.optimalSum)
    ensures Read(Block(id, c) + rest) == Read(rest)
  {
    BlockBeyondIntDropped([], id, c);
    RunFromConcat(Start, Block(id, c), rest);
  }

  /** The loop over four lines. */
  lemma RunFour(s: State, a: string, b: string, c: string, d: string)
    ensures RunFrom(s, [a, b, c, d]) == Step(Step(Step(Step(s, a), b), c), d)
  {
    RunFromSnoc(s, [], a);
    RunFromSnoc(s, [a], b);
    RunFromSnoc(s, [a, b], c);
    RunFromSnoc(s, [a, b, c], d);
    assert [] + [a] == [a] && [a] + [b] == [a, b];
    assert [a, b] + [c] == [a, b, c] && [a, b, c] + [d] == [a, b, c, d];
  }

  lemma {:induction false} RenderRead(acc: seq<Instance>, first: nat, cs: seq<Instance>)
    requires forall i :: 0 <= i < |cs| ==> Writable(cs[i])
    requires forall i :: 0 <= i < |acc| ==> |acc[i].values| == acc[i].m
    ensures RunFrom(State(acc, None, false), Render(first, cs)) == State(acc + cs, None, false)
    decreases |cs|
  {
    if cs == [] {
      assert acc + cs == acc;
    } else {
      var acc' := acc + [cs[0]];
      assert forall i :: 0 <= i < |acc'| ==> |acc'[i].values| == acc'[i].m;
      RenderRead(acc', first + 1, cs[1..]);
      BlockThenRest(acc, first, cs);
    }
  }

  /** A block, then the rest of the file read from where the block left off. */
  lemma BlockThenRest(acc: seq<Instance>, first: nat, cs: seq<Instance>)
    requires cs != [] && Writable(cs[0]) && forall i :: 0 <= i < |acc| ==> |acc[i].values| == acc[i].m
    requires RunFrom(State(acc + [cs[0]], None, false), Render(first + 1, cs[1..])) == State(acc + [cs[0]] + cs[1..], None, false)
    ensures RunFrom(State(acc, None, false), Render(first, cs)) == State(acc + cs, None, false)
  {
    var acc' := acc + [cs[0]];
    BlockRead(acc, first, cs[0]);
    ConsSplit(acc, cs);
    RenderCons(first, cs);
    RunThrough(State(acc, None, false), Block(first, cs[0]), State(acc', None, false),
      Render(first + 1, cs[1..]), State(acc + cs, None, false));
  }

  lemma RunThrough(s0: State, a: seq<string>, s1: State, b: seq<string>, s2: State)
    requires RunFrom(s0, a) == s1 && RunFrom(s1, b) == s2
    ensures RunFrom(s0, a + b) == s2
  {
    RunFromConcat(s0, a, b);
  }

  /** Reading a file the generators wrote gives back its instances, in order. */
  lemma ReadRendered(cs: seq<Instance>)
    requires forall i :: 0 <= i < |cs| ==> Writable(cs[i])
    ensures Read(Render(1, cs)) == cs
  {
    RenderRead([], 1, cs);
    assert [] + cs == cs;
  }

  /** The loop over a value line's tokens: each non-empty trimmed token is
      handed to Integer.parseInt and the ints are added to current.values. */
  method AddValues(current: InstanceData, nums: seq<string>)
    modifies current
    ensures current.values == old(current.values) + ParsedValues(nums)
    ensures current.m == old(current.m) && current.n == old(current.n)
    ensures current.b == old(current.b) && current.optimalSum == old(current.optimalSum)
  {
    var j := 0;
    while j < |nums|
      invariant 0 <= j <= |nums|
      invariant current.values == old(current.values) + ParsedValues(nums[..j])
      invariant current.m == old(current.m) && current.n == old(current.n)
      invariant current.b == old(current.b) && current.optimalSum == old(current.optimalSum)
    {
      assert nums[..j + 1][..j] == nums[..j];
      var num := Trim(JavaTrimSpace, nums[j]);
      if num != [] {
        var parsed := JavaParseInt(num);
        if parsed.Some? {
          current.values := current.values + [parsed.value];
        }
      }
      j := j + 1;
    }
    assert nums[..j] == nums;
  }

  /** The program variables mirror a state of the loop: the objects in the
      list hold its instances, current holds the pending one and is not in
      the list, and the flag agrees. */
  predicate Mirrors(instances: seq<InstanceData>, current: InstanceData?, expectingValues: bool, s: State)
    reads instances, current
  {
    |instances| == |s.instances| &&
    (forall i :: 0 <= i < |instances| ==> instances[i].Contents() == s.instances[i]) &&
    (current == null <==> s.current.None?) &&
    (current != null ==> current.Contents() == s.current.value && current !in instances) &&
    expectingValues == s.expectingValues
  }

  /** The body of the while loop for one line read. */
  method HandleLine(instances: seq<InstanceData>, current: InstanceData?, expectingValues: bool, raw: string, ghost s: State)
      returns (instances': seq<InstanceData>, current': InstanceData?, expectingValues': bool)
    requires Mirrors(instances, current, expectingValues, s)
    modifies current
    ensures current' == null || current' == current || fresh(current')
    ensures Mirrors(instances', current', expectingValues', Step(s, raw))
  {
    instances', current', expectingValues' := instances, current, expectingValues;
    var line := Trim(JavaTrimSpace, raw);
    if line == [] {
      return;
    }
    if line[0] == '#' {
      instances', current', expectingValues' := HandleHeader(instances, current, expectingValues, s);
      return;
    }
    if current == null {
      return;
    }
    if !expectingValues && current.m == 0 {
      current', expectingValues' := HandleParams(instances, current, expectingValues, line, s);
    } else if expectingValues {
      instances', current', expectingValues' := HandleValues(instances, current, line, s);
    }
  }

  /** `# ...`: the pending instance is saved when complete, and a new one
      started. */
  method HandleHeader(instances: seq<InstanceData>, current: InstanceData?, expectingValues: bool, ghost s: State)
      returns (instances': seq<InstanceData>, current': InstanceData?, expectingValues': bool)
    requires Mirrors(instances, current, expectingValues, s)
    ensures fresh(current')
    ensures Mirrors(instances', current', expectingValues', HeaderLine(s))
  {
    instances' := instances;
    if current != null && current.m > 0 && |current.values| == current.m {
      instances' := instances + [current];
    }
    current' := new InstanceData();
    expectingValues' := false;
  }

  /** The parameter line: the four fields are assigned one by one. */
  method HandleParams(instances: seq<InstanceData>, current: InstanceData, expectingValues: bool, line: string, ghost s: State)
      returns (current': InstanceData?, expectingValues': bool)
    requires Mirrors(instances, current, expectingValues, s) && !expectingValues && current.m == 0
    modifies current
    ensures current' == null || current' == current
    ensures Mirrors(instances, current', expectingValues', ParamLine(s, line))
  {
    current', expectingValues' := current, expectingValues;
    var parts := Words(AsciiSpace, line);
    if |parts| >= 4 {
      var params := ParseParams(parts);
      if params.Some? {
        current.m, current.n, current.b, current.optimalSum := params.value.0, params.value.1, params.value.2, params.value.3;
        expectingValues' := true;
      } else {
        current' := null;
      }
    }
  }

  /** A value line: its ints are added, then the instance is saved and let
      go when it holds M values. */
  method HandleValues(instances: seq<InstanceData>, current: InstanceData, line: string, ghost s: State)
      returns (instances': seq<InstanceData>, current': InstanceData?, expectingValues': bool)
    requires Mirrors(instances, current, true, s)
    modifies current
    ensures current' == null || current' == current
    ensures Mirrors(instances', current', expectingValues', ValueLine(s, line))
  {
    instances', current', expectingValues' := instances, current, true;
    var nums := Words(AsciiSpace, line);
    AddValues(current, nums);
    if |current.values| == current.m {
      instances' := instances + [current];
      current' := null;
      expectingValues' := false;
    }
  }

  /** parseInstances over the lines of the file. */
  method ParseInstances(lines: seq<string>) returns (instances: seq<InstanceData>)
    ensures |instances| == |Read(lines)|
    ensures forall i :: 0 <= i < |instances| ==> instances[i].Contents() == Read(lines)[i]
  {
    var current, expectingValues;
    instances, current, expectingValues := ReadLines(lines);
    instances := SaveLast(instances, current, expectingValues, RunFrom(Start, lines));
  }

  /** The while loop over the lines: afterwards the variables mirror the
      state the lines lead to from the start. */
  method ReadLines(lines: seq<string>) returns (instances: seq<InstanceData>, current: InstanceData?, expectingValues: bool)
    ensures Mirrors(instances, current, expectingValues, RunFrom(Start, lines))
  {
    instances := [];
    current := null;
    expectingValues := false;
    var t := 0;
    while t < |lines|
      invariant 0 <= t <= |lines|
      invariant Mirrors(instances, current, expectingValues, RunFrom(Start, lines[..t]))
      invariant current == null || fresh(current)
    {
      ghost var s := RunFrom(Start, lines[..t]);
      RunFromSnoc(Start, lines[..t], lines[t]);
      assert lines[..t] + [lines[t]] == lines[..t + 1];
      instances, current, expectingValues := HandleLine(instances, current, expectingValues, lines[t], s);
      t := t + 1;
    }
    assert lines[..t] == lines;
  }

  /** The check after the loop: the pending instance is saved when complete. */
  method SaveLast(instances: seq<InstanceData>, current: InstanceData?, expectingValues: bool, ghost s: State)
      returns (instances': seq<InstanceData>)
    requires Mirrors(instances, current, expectingValues, s)
    ensures |instances'| == |Finish(s)|
    ensures forall i :: 0 <= i < |instances'| ==> instances'[i].Contents() == Finish(s)[i]
  {
    instances' := instances;
    if current != null && current.m > 0 && |current.values| == current.m {
      instances' := instances + [current];
    }
  }
}
