/** ReadInstances::readInstances of the C++ code
    (cpp/include/ReadInstances.cpp): a loop over the lines of an instance file
    with std::getline, keeping the instance being read in a local
    InstanceData, a readingValues flag and a count of the values read.
    InstanceData is a struct, so push_back stores a copy: the model keeps it
    as a value. */
module CppReader {
  import opened Errors
  import opened Text
  import opened InstanceFile

  /** When an instance is complete.  AsWritten is the code: valuesCount,
      reset only by a header, is compared with N after a value line and with
      M at a header and at the end of the file.  Intended compares the values
      held with M everywhere. */
  datatype Rule = AsWritten | Intended

  /** The loop's variables between two lines. */
  datatype State = State(instances: seq<Instance>, current: Instance, readingValues: bool, valuesCount: int)

  /** Before the first line.  The C++ `InstanceData current;` leaves the
      numbers indeterminate; they are never read before they are set, and
      the model starts from Blank. */
  const Start := State([], Blank, false, 0)

  /** The count the rule compares. */
  function Count(rule: Rule, s: State): int
  {
    match rule
    case AsWritten => s.valuesCount
    case Intended => |s.current.values|
  }

  /** The test at a header and at the end of the file: an instance is being
      read and the count equals M. */
  predicate Pending(rule: Rule, s: State)
  {
    s.readingValues && Count(rule, s) == s.current.m
  }

  /** The list with the pending instance saved, when the test passes. */
  function Flush(rule: Rule, s: State): (r: seq<Instance>)
    ensures Pending(rule, s) ==> r == s.instances + [s.current]
    ensures !Pending(rule, s) ==> r == s.instances
  {
    if Pending(rule, s) then s.instances + [s.current] else s.instances
  }

  /** One pass of the loop on a line.  Only appends to the list, at most one
      instance. */
  function Step(rule: Rule, s: State, line: string): (r: State)
    ensures |s.instances| <= |r.instances| <= |s.instances| + 1
    ensures r.instances[..|s.instances|] == s.instances
  {
    if line == [] then s
    else if Contains(line, "# Instance") then State(Flush(rule, s), Blank, false, 0)
    else if !s.readingValues && '#' !in line then ParamLine(s, line)
    else if s.readingValues then ValueLine(rule, s, line)
    else s
  }

  /** `iss >> M >> N >> B >> optimalSum` on a line free of '#'.  A line that
      does not give four ints changes nothing the loop reads later; M <= 0
      sets the four fields but keeps readingValues false; otherwise the
      values are cleared and values are expected. */
  function ParamLine(s: State, line: string): (r: State)
    ensures r.instances == s.instances
  {
    match CppExtractFour(line)
    case None => s
    case Some((m, n, b, o)) =>
      if m <= 0 then s.(current := s.current.(m := m, n := n, b := b, optimalSum := o))
      else s.(current := Instance(m, n, b, o, []), readingValues := true)
  }

  /** `while (iss >> value)` adds each int to the values and to the count;
      then the instance is saved, and no more values are expected, when the
      rule finds it complete. */
  function ValueLine(rule: Rule, s: State, line: string): (r: State)
    ensures r.instances == s.instances || r.instances == s.instances + [r.current]
  {
    var vs := CppExtractAll(line);
    var c := s.current.(values := s.current.values + vs);
    var count := s.valuesCount + |vs|;
    var done := match rule
      case AsWritten => count == c.n
      case Intended => |c.values| == c.m;
    if done then State(s.instances + [c], c, false, count) else State(s.instances, c, true, count)
  }

  /** The loop run from state s over some lines. */
  function RunFrom(rule: Rule, s: State, lines: seq<string>): State
    decreases |lines|
  {
    if lines == [] then s else Step(rule, RunFrom(rule, s, lines[..|lines| - 1]), lines[|lines| - 1])
  }

  /** What readInstances returns: the loop's list, and the pending instance
      when the final test passes. */
  function Read(rule: Rule, lines: seq<string>): seq<Instance>
  {
    Flush(rule, RunFrom(rule, Start, lines))
  }

  lemma RunFromSnoc(rule: Rule, s: State, lines: seq<string>, line: string)
    ensures RunFrom(rule, s, lines + [line]) == Step(rule, RunFrom(rule, s, lines), line)
  {
    assert (lines + [line])[..|lines|] == lines;
  }

  lemma {:induction false} RunFromConcat(rule: Rule, s: State, a: seq<string>, b: seq<string>)
    ensures RunFrom(rule, s, a + b) == RunFrom(rule, RunFrom(rule, s, a), b)
    decreases |b|
  {
    if b == [] {
      assert a + b == a;
    } else {
      assert (a + b)[..|a + b| - 1] == a + b[..|b| - 1];
      RunFromConcat(rule, s, a, b[..|b| - 1]);
    }
  }

  /** What holds between two lines: an instance is read only with M > 0, every
      saved instance has M > 0, and under the intended rule every saved
      instance holds exactly M values. */
  predicate Inv(rule: Rule, s: State)
  {
    (s.readingValues ==> s.current.m > 0) &&
    (forall i :: 0 <= i < |s.instances| ==> s.instances[i].m > 0) &&
    (rule == Intended ==> forall i :: 0 <= i < |s.instances| ==> |s.instances[i].values| == s.instances[i].m)
  }

  lemma StepKeepsInv(rule: Rule, s: State, line: string)
    requires Inv(rule, s)
    ensures Inv(rule, Step(rule, s, line))
  {
  }

  lemma {:induction false} RunKeepsInv(rule: Rule, s: State, lines: seq<string>)
    requires Inv(rule, s)
    ensures Inv(rule, RunFrom(rule, s, lines))
    decreases |lines|
  {
    if lines != [] {
      RunKeepsInv(rule, s, lines[..|lines| - 1]);
      StepKeepsInv(rule, RunFrom(rule, s, lines[..|lines| - 1]), lines[|lines| - 1]);
    }
  }

  /** Whatever the file, every instance returned has M > 0; under the
      intended rule it also holds exactly M values. */
  lemma ReadPositive(rule: Rule, lines: seq<string>)
    ensures forall i :: 0 <= i < |Read(rule, lines)| ==> Read(rule, lines)[i].m > 0
    ensures rule == Intended ==> forall i :: 0 <= i < |Read(rule, lines)| ==> |Read(rule, lines)[i].values| == Read(rule, lines)[i].m
  {
    RunKeepsInv(rule, Start, lines);
  }

  /** Only empty lines are skipped: a line of blanks is looked at. */
  lemma EmptyLineIgnored(rule: Rule, a: seq<string>, b: seq<string>)
    ensures Read(rule, a + [""] + b) == Read(rule, a + b)
  {
    RunFromConcat(rule, Start, a + [""], b);
    RunFromSnoc(rule, Start, a, "");
    RunFromConcat(rule, Start, a, b);
  }

  /** A line holding "# Instance" anywhere saves the pending instance when the
      test passes and starts over, whatever state the loop is in. */
  lemma HeaderStep(rule: Rule, s: State, id: nat)
    ensures Step(rule, s, "# Instance " + IntToString(id)) == State(Flush(rule, s), Blank, false, 0)
  {
    HeaderShape(AsciiSpace, id);
  }

  /** '#' is not in a line that holds "# Instance". */
  lemma NoHashNoHeader(line: string)
    requires '#' !in line
    ensures !Contains(line, "# Instance")
  {
    if Contains(line, "# Instance") {
      HeaderHasHash(line);
    }
  }

  lemma HeaderHasHash(line: string)
    requires Contains(line, "# Instance")
    ensures '#' in line
  {
    var i: nat :| OccursAt(line, "# Instance", i);
    assert line[i] == line[i..i + 10][0];
  }

  lemma ParamsStep(rule: Rule, acc: seq<Instance>, c: Instance)
    requires Writable(c)
    ensures Step(rule, State(acc, Blank, false, 0), Unwords(Numerals([c.m, c.n, c.b, c.optimalSum])))
         == State(acc, c.(values := []), true, 0)
  {
    var line := Unwords(Numerals([c.m, c.n, c.b, c.optimalSum]));
    NumeralLinePlain(AsciiSpace, [c.m, c.n, c.b, c.optimalSum]);
    NoHashNoHeader(line);
    CppExtractNumerals([c.m, c.n, c.b, c.optimalSum]);
  }

  /** The value line of a written instance completes it: the count reaches
      M; it is saved at once when the rule's test passes there, and stays
      pending with a count equal to M otherwise. */
  lemma ValuesStep(rule: Rule, acc: seq<Instance>, c: Instance)
    requires Writable(c)
    ensures Flush(rule, Step(rule, State(acc, c.(values := []), true, 0), Unwords(Numerals(c.values)))) == acc + [c]
  {
    ValueLineShape(c.values);
    LastValueLine(rule, acc, c, Unwords(Numerals(c.values)));
  }

  lemma LastValueLine(rule: Rule, acc: seq<Instance>, c: Instance, line: string)
    requires c.m == |c.values| > 0
    requires line != [] && '#' !in line && !Contains(line, "# Instance") && CppExtractAll(line) == c.values
    ensures Flush(rule, Step(rule, State(acc, c.(values := []), true, 0), line)) == acc + [c]
  {
    assert [] + c.values == c.values;
  }

  lemma RunFour(rule: Rule, s: State, a: string, b: string, c: string, d: string)
    ensures RunFrom(rule, s, [a, b, c, d]) == Step(rule, Step(rule, Step(rule, Step(rule, s, a), b), c), d)
  {
    RunFromSnoc(rule, s, [], a);
    RunFromSnoc(rule, s, [a], b);
    RunFromSnoc(rule, s, [a, b], c);
    RunFromSnoc(rule, s, [a, b, c], d);
    assert [] + [a] == [a] && [a] + [b] == [a, b];
    assert [a, b] + [c] == [a, b, c] && [a, b, c] + [d] == [a, b, c, d];
  }

  /** One generated block adds its instance to what the file read so far
      amounts to. */
  lemma BlockRead(rule: Rule, s: State, id: nat, c: Instance)
    requires Writable(c)
    ensures Flush(rule, RunFrom(rule, s, Block(id, c))) == Flush(rule, s) + [c]
  {
    var bl := Block(id, c);
    var acc := Flush(rule, s);
    HeaderStep(rule, s, id);
    ParamsStep(rule, acc, c);
    var s3 := Step(rule, State(acc, c.(values := []), true, 0), bl[2]);
    ValuesStep(rule, acc, c);
    assert Step(rule, s3, "") == s3;
    RunFour(rule, s, bl[0], bl[1], bl[2], bl[3]);
  }

  lemma {:induction false} RenderRead(rule: Rule, s: State, first: nat, cs: seq<Instance>)
    requires forall i :: 0 <= i < |cs| ==> Writable(cs[i])
    ensures Flush(rule, RunFrom(rule, s, Render(first, cs))) == Flush(rule, s) + cs
    decreases |cs|
  {
    if cs == [] {
      assert Flush(rule, s) + cs == Flush(rule, s);
    } else {
      var s1 := RunFrom(rule, s, Block(first, cs[0]));
      RenderRead(rule, s1, first + 1, cs[1..]);
      BlockThenRest(rule, s, first, cs, s1);
    }
  }

  lemma BlockThenRest(rule: Rule, s: State, first: nat, cs: seq<Instance>, s1: State)
    requires cs != [] && Writable(cs[0]) && s1 == RunFrom(rule, s, Block(first, cs[0]))
    requires Flush(rule, RunFrom(rule, s1, Render(first + 1, cs[1..]))) == Flush(rule, s1) + cs[1..]
    ensures Flush(rule, RunFrom(rule, s, Render(first, cs))) == Flush(rule, s) + cs
  {
    BlockRead(rule, s, first, cs[0]);
    ConsSplit(Flush(rule, s), cs);
    RenderCons(first, cs);
    RunFromConcat(rule, s, Block(first, cs[0]), Render(first + 1, cs[1..]));
  }

  /** Reading a file the generators wrote gives back its instances, in order,
      under either rule: with M values on one line the count reaches M in one
      step, and an instance whose N differs from M is saved by the next
      header or by the end of the file. */
  lemma ReadRendered(rule: Rule, cs: seq<Instance>)
    requires forall i :: 0 <= i < |cs| ==> Writable(cs[i])
    ensures Read(rule, Render(1, cs)) == cs
  {
    RenderRead(rule, Start, 1, cs);
    assert [] + cs == cs;
  }

  /** A written line of values: not empty, no '#', and extraction gives
      the values back. */
  lemma ValueLineShape(vs: seq<int>)
    requires vs != [] && forall i :: 0 <= i < |vs| ==> InInt(vs[i])
    ensures var line := Unwords(Numerals(vs));
      line != [] && '#' !in line && !Contains(line, "# Instance") && CppExtractAll(line) == vs
  {
    NumeralLinePlain(AsciiSpace, vs);
    NoHashNoHeader(Unwords(Numerals(vs)));
    CppExtractNumerals(vs);
  }

  /** An instance whose values are spread over two lines, the first holding
      N of them, the second fewer than four: as written, the count reaches N
      after the first line and the instance is saved holding only those,
      and the second line is taken for a malformed parameter line. */
  lemma SplitAsWritten(c: Instance, v1: seq<int>, v2: seq<int>)
    requires Writable(c) && c.values == v1 + v2 && v1 != [] && v2 != [] && |v1| == c.n != c.m && |v2| < 4
    ensures Read(AsWritten, ["# Instance " + IntToString(1), Unwords(Numerals([c.m, c.n, c.b, c.optimalSum])),
                             Unwords(Numerals(v1)), Unwords(Numerals(v2))]) == [c.(values := v1)]
  {
    var l0, l1, l2, l3 := "# Instance " + IntToString(1), Unwords(Numerals([c.m, c.n, c.b, c.optimalSum])),
                          Unwords(Numerals(v1)), Unwords(Numerals(v2));
    RunFour(AsWritten, Start, l0, l1, l2, l3);
    HeaderStep(AsWritten, Start, 1);
    ParamsStep(AsWritten, [], c);
    SplitHalves(c, v1, v2);
    ValueLineShape(v1);
    ValueLineShape(v2);
    var c1 := c.(values := v1);
    var s3 := State([c1], c1, false, |v1|);
    FirstHalfAsWritten(c, v1, l2);
    assert Step(AsWritten, s3, l3) == s3;
  }

  lemma SplitHalves(c: Instance, v1: seq<int>, v2: seq<int>)
    requires Writable(c) && c.values == v1 + v2
    ensures forall i :: 0 <= i < |v1| ==> InInt(v1[i])
    ensures forall i :: 0 <= i < |v2| ==> InInt(v2[i])
  {
    assert forall i :: 0 <= i < |v1| ==> v1[i] == c.values[i];
    assert forall i :: 0 <= i < |v2| ==> v2[i] == c.values[|v1| + i];
  }

  lemma FirstHalfAsWritten(c: Instance, v1: seq<int>, l2: string)
    requires v1 != [] && |v1| == c.n && l2 == Unwords(Numerals(v1))
    requires l2 != [] && '#' !in l2 && !Contains(l2, "# Instance") && CppExtractAll(l2) == v1
    ensures Step(AsWritten, State([], c.(values := []), true, 0), l2) == State([c.(values := v1)], c.(values := v1), false, |v1|)
  {
    assert [] + v1 == v1;
  }

  lemma HalvesIntended(c: Instance, v1: seq<int>, v2: seq<int>, l2: string, l3: string)
    requires Writable(c) && c.values == v1 + v2 && v1 != [] && v2 != []
    requires l2 != [] && '#' !in l2 && !Contains(l2, "# Instance") && CppExtractAll(l2) == v1
    requires l3 != [] && '#' !in l3 && !Contains(l3, "# Instance") && CppExtractAll(l3) == v2
    ensures Step(Intended, Step(Intended, State([], c.(values := []), true, 0), l2), l3) == State([c], c, false, |v1| + |v2|)
  {
    assert [] + v1 == v1;
  }

  /** The same file under the intended rule: the instance is read whole. */
  lemma SplitIntended(c: Instance, v1: seq<int>, v2: seq<int>)
    requires Writable(c) && c.values == v1 + v2 && v1 != [] && v2 != []
    ensures Read(Intended, ["# Instance " + IntToString(1), Unwords(Numerals([c.m, c.n, c.b, c.optimalSum])),
                            Unwords(Numerals(v1)), Unwords(Numerals(v2))]) == [c]
  {
    var l0, l1, l2, l3 := "# Instance " + IntToString(1), Unwords(Numerals([c.m, c.n, c.b, c.optimalSum])),
                          Unwords(Numerals(v1)), Unwords(Numerals(v2));
    RunFour(Intended, Start, l0, l1, l2, l3);
    HeaderStep(Intended, Start, 1);
    ParamsStep(Intended, [], c);
    SplitHalves(c, v1, v2);
    ValueLineShape(v1);
    ValueLineShape(v2);
    HalvesIntended(c, v1, v2, l2, l3);
  }

  /** The file "# Instance 1", "4 2 0 10", "1 2", "3 4": as written the
      instance comes back with two of its four values; the intended rule
      reads all four. */
  lemma CountAgainstN()
    ensures var lines := ["# Instance " + IntToString(1), Unwords(Numerals([4, 2, 0, 10])),
                          Unwords(Numerals([1, 2])), Unwords(Numerals([3, 4]))];
      Read(AsWritten, lines) == [Instance(4, 2, 0, 10, [1, 2])] &&
      Read(Intended, lines) == [Instance(4, 2, 0, 10, [1, 2, 3, 4])]
  {
    var c := Instance(4, 2, 0, 10, [1, 2, 3, 4]);
    assert c.values == [1, 2] + [3, 4];
    SplitAsWritten(c, [1, 2], [3, 4]);
    SplitIntended(c, [1, 2], [3, 4]);
  }

  /** The `while (iss >> value)` loop: each int extracted is pushed and
      counted, until an extraction fails. */
  method ReadValues(line: string, values: seq<int>, valuesCount: int) returns (values': seq<int>, valuesCount': int)
    ensures values' == values + CppExtractAll(line)
    ensures valuesCount' == valuesCount + |CppExtractAll(line)|
  {
    values', valuesCount' := values, valuesCount;
    var rest := line;
    ghost var added: seq<int> := [];
    ghost var want := CppExtractAll(line);
    var r := CppExtractInt(rest);
    while r.Some?
      invariant r == CppExtractInt(rest) && want == added + CppExtractAll(rest)
      invariant values' == values + added && valuesCount' == valuesCount + |added|
      decreases |rest|
    {
      var value, rest' := r.value.0, r.value.1;
      ExtractAllSome(want, added, rest, value, rest');
      values', valuesCount' := values' + [value], valuesCount' + 1;
      added, rest := added + [value], rest';
      r := CppExtractInt(rest);
    }
    ExtractAllNone(rest);
    assert added + [] == added;
  }

  lemma ExtractAllNone(s: string)
    requires CppExtractInt(s) == None
    ensures CppExtractAll(s) == []
  {
  }

  lemma ExtractAllSome(want: seq<int>, added: seq<int>, s: string, v: int, rest: string)
    requires CppExtractInt(s) == Some((v, rest)) && want == added + CppExtractAll(s)
    ensures want == (added + [v]) + CppExtractAll(rest)
  {
    CppExtractAllCons(s, v, rest);
  }

  /** readInstances over the lines of the file, as written. */
  method ReadInstances(lines: seq<string>) returns (instances: seq<Instance>)
    ensures instances == Read(AsWritten, lines)
  {
    instances := [];
    var current := Blank;
    var readingValues := false;
    var valuesCount := 0;
    var t := 0;
    while t < |lines|
      invariant 0 <= t <= |lines|
      invariant State(instances, current, readingValues, valuesCount) == RunFrom(AsWritten, Start, lines[..t])
    {
      var line := lines[t];
      ghost var s := State(instances, current, readingValues, valuesCount);
      assert lines[..t + 1] == lines[..t] + [line];
      RunFromSnoc(AsWritten, Start, lines[..t], line);
      if line == [] {
      } else if Contains(line, "# Instance") {
        if readingValues && valuesCount == current.m {
          instances := instances + [current];
        }
        current := Blank;
        readingValues := false;
        valuesCount := 0;
      } else if !readingValues && '#' !in line {
        var params := CppExtractFour(line);
        if params.Some? {
          var (m, n, b, o) := params.value;
          current := current.(m := m, n := n, b := b, optimalSum := o);
          if m > 0 {
            current := current.(values := []);
            readingValues := true;
          }
        }
      } else if readingValues {
        var values;
        values, valuesCount := ReadValues(line, current.values, valuesCount);
        current := current.(values := values);
        if valuesCount == current.n {
          instances := instances + [current];
          readingValues := false;
        }
      }
      assert State(instances, current, readingValues, valuesCount) == Step(AsWritten, s, line);
      t := t + 1;
    }
    assert lines[..t] == lines;
    if readingValues && valuesCount == current.m {
      instances := instances + [current];
    }
  }
}
