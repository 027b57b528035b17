/** The instance files the generators write (cpp/src/generate-instances.cpp,
    python/generate-instances.py) and the three readers read: per instance a
    header "# Instance id", a line "M N B OPT", a line of M values separated
    by single spaces, and an empty line. */
module InstanceFile {
  import opened Text

  /** What an InstanceData holds, in each of the three languages. */
  datatype Instance = Instance(m: int, n: int, b: int, optimalSum: int, values: seq<int>)

  /** A freshly made InstanceData: every number 0 and no values. */
  const Blank := Instance(0, 0, 0, 0, [])

  /** The four lines written for one instance. */
  function Block(id: nat, c: Instance): seq<string>
  {
    ["# Instance " + IntToString(id), Unwords(Numerals([c.m, c.n, c.b, c.optimalSum])), Unwords(Numerals(c.values)), ""]
  }

  /** The lines of a whole file, numbering instances from first. */
  function Render(first: nat, cs: seq<Instance>): seq<string>
    decreases |cs|
  {
    if cs == [] then [] else Block(first, cs[0]) + Render(first + 1, cs[1..])
  }

  /** An instance the readers can give back: M values, M > 0, and every
      number fitting a 32-bit int. */
  predicate Writable(c: Instance)
  {
    c.m == |c.values| > 0 && InInt(c.m) && InInt(c.n) && InInt(c.b) && InInt(c.optimalSum) &&
    forall i :: 0 <= i < |c.values| ==> InInt(c.values[i])
  }

  lemma RenderCons(first: nat, cs: seq<Instance>)
    requires cs != []
    ensures Render(first, cs) == Block(first, cs[0]) + Render(first + 1, cs[1..])
  {
  }

  lemma ConsSplit(acc: seq<Instance>, cs: seq<Instance>)
    requires cs != []
    ensures acc + [cs[0]] + cs[1..] == acc + cs
  {
  }

  /** The header line holds no white space at its ends, starts with
      "# Instance" and therefore contains it. */
  lemma HeaderShape(k: Spaces, id: nat)
    ensures var h := "# Instance " + IntToString(id);
      "# Instance" <= h && !IsSpace(k, h[0]) && !IsSpace(k, h[|h| - 1])
  {
    var h := "# Instance " + IntToString(id);
    var d := IntToString(id);
    NumeralEndsWithDigit(d);
    assert h[|h| - 1] == d[|d| - 1];
    assert h[..10] == "# Instance";
  }
}
