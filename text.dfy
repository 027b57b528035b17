/** Characters, white space, trimming, splitting a line into words, and the
    integer-token parsers of the three instance readers: Java's
    Integer.parseInt, C++'s `istream >> int`, and Python's int(). */
module Text {
  import opened Errors

  /** The range of a 32-bit int, the type Java and C++ parse into. */
  const IntMin: int := -0x8000_0000
  const IntMax: int := 0x7fff_ffff

  predicate InInt(n: int)
  {
    IntMin <= n <= IntMax
  }

  predicate IsDigit(c: char)
  {
    '0' <= c <= '9'
  }

  predicate AllDigits(s: string)
  {
    forall i :: 0 <= i < |s| ==> IsDigit(s[i])
  }

  function DigitValue(c: char): (d: nat)
    requires IsDigit(c)
    ensures d <= 9
  {
    c as int - '0' as int
  }

  function DigitChar(d: nat): (c: char)
    requires d <= 9
    ensures IsDigit(c) && DigitValue(c) == d
  {
    ('0' as int + d) as char
  }

  /** The number a run of decimal digits denotes, most significant first. */
  function DigitsValue(s: string): nat
    requires AllDigits(s)
    decreases |s|
  {
    if s == [] then 0 else DigitsValue(s[..|s| - 1]) * 10 + DigitValue(s[|s| - 1])
  }

  /** n in decimal, without leading zeros. */
  function NatToDigits(n: nat): (s: string)
    ensures s != [] && AllDigits(s)
    decreases n
  {
    if n < 10 then [DigitChar(n)] else NatToDigits(n / 10) + [DigitChar(n % 10)]
  }

  /** Reading back the decimal digits of n gives n. */
  lemma {:induction false} NatToDigitsValue(n: nat)
    ensures DigitsValue(NatToDigits(n)) == n
    decreases n
  {
    if n >= 10 {
      var s := NatToDigits(n);
      assert s[..|s| - 1] == NatToDigits(n / 10);
      NatToDigitsValue(n / 10);
    }
  }

  /** What a program prints for an integer: a '-' when negative, then digits. */
  predicate IsNumeral(s: string)
  {
    s != [] && (IsDigit(s[0]) || (s[0] == '-' && |s| >= 2)) && AllDigits(s[1..])
  }

  /** n as Java's, C++'s and Python's printing of an integer writes it. */
  function IntToString(n: int): (s: string)
    ensures IsNumeral(s) && (s[0] == '-' <==> n < 0)
  {
    if n < 0 then "-" + NatToDigits(-n) else NatToDigits(n)
  }

  /** The notions of white space the readers rely on. */
  datatype Spaces =
    | JavaTrimSpace  // what String.trim removes: every char up to U+0020
    | AsciiSpace     // \s of java.util.regex, and isspace in the C locale
    | PySpace        // str.isspace of Python, which str.strip and str.split use

  predicate IsSpace(k: Spaces, c: char)
  {
    match k
    case JavaTrimSpace => c <= ' '
    case AsciiSpace => c == ' ' || '\t' <= c <= '\r'
    case PySpace =>
      '\t' <= c <= '\r' || '\U{1c}' <= c <= ' ' || c == '\U{85}' || c == '\U{a0}' || c == '\U{1680}' ||
      '\U{2000}' <= c <= '\U{200a}' || c == '\U{2028}' || c == '\U{2029}' || c == '\U{202f}' ||
      c == '\U{205f}' || c == '\U{3000}'
  }

  predicate NoSpace(k: Spaces, s: string)
  {
    forall i :: 0 <= i < |s| ==> !IsSpace(k, s[i])
  }

  /** A numeral ends with a digit. */
  lemma NumeralEndsWithDigit(s: string)
    requires IsNumeral(s)
    ensures IsDigit(s[|s| - 1])
  {
    if |s| > 1 {
      assert s[|s| - 1] == s[1..][|s| - 2];
    }
  }

  /** A numeral holds no white space of any kind, and no '#'. */
  lemma NumeralPlain(k: Spaces, s: string)
    requires IsNumeral(s)
    ensures NoSpace(k, s) && '#' !in s
  {
    forall i | 0 <= i < |s| ensures !IsSpace(k, s[i]) && s[i] != '#' {
      if i > 0 {
        assert s[1..][i - 1] == s[i];
      }
    }
  }

  /** The number of white-space characters s starts with. */
  function LeadingSpaces(k: Spaces, s: string): (n: nat)
    ensures n <= |s| && (forall i :: 0 <= i < n ==> IsSpace(k, s[i])) && (n < |s| ==> !IsSpace(k, s[n]))
    decreases |s|
  {
    if s == [] || !IsSpace(k, s[0]) then 0 else 1 + LeadingSpaces(k, s[1..])
  }

  /** The number of white-space characters s ends with. */
  function TrailingSpaces(k: Spaces, s: string): (n: nat)
    ensures n <= |s| && (forall i :: |s| - n <= i < |s| ==> IsSpace(k, s[i]))
    ensures n < |s| ==> !IsSpace(k, s[|s| - 1 - n])
    decreases |s|
  {
    if s == [] || !IsSpace(k, s[|s| - 1]) then 0 else 1 + TrailingSpaces(k, s[..|s| - 1])
  }

  /** String.trim for JavaTrimSpace, str.strip for PySpace: empty exactly when
      s is nothing but white space, and otherwise starting and ending with a
      character that is not. */
  function Trim(k: Spaces, s: string): (r: string)
    ensures r == [] <==> forall i :: 0 <= i < |s| ==> IsSpace(k, s[i])
    ensures r != [] ==> !IsSpace(k, r[0]) && !IsSpace(k, r[|r| - 1])
  {
    var a := LeadingSpaces(k, s);
    if a == |s| then []
    else
      s[a..|s| - TrailingSpaces(k, s)]
  }

  /** What Trim keeps is s with its white space at both ends cut off: a slice
      of s, with nothing but white space before it and after it. */
  lemma TrimCutsSpaces(k: Spaces, s: string)
    ensures var r := Trim(k, s);
      exists i, j :: 0 <= i <= j <= |s| && r == s[i..j] && (forall p :: 0 <= p < i || j <= p < |s| ==> IsSpace(k, s[p]))
  {
    var a := LeadingSpaces(k, s);
    if a == |s| {
      assert Trim(k, s) == s[0..0];
    } else {
      var b := |s| - TrailingSpaces(k, s);
      assert Trim(k, s) == s[a..b];
    }
  }

  /** A line that starts and ends with a non-space is its own trim. */
  lemma TrimUnchanged(k: Spaces, s: string)
    requires s == [] || (!IsSpace(k, s[0]) && !IsSpace(k, s[|s| - 1]))
    ensures Trim(k, s) == s
  {
  }

  /** The number of leading characters of s that are not white space. */
  function WordLength(k: Spaces, s: string): (n: nat)
    ensures n <= |s| && (forall i :: 0 <= i < n ==> !IsSpace(k, s[i])) && (n < |s| ==> IsSpace(k, s[n]))
    decreases |s|
  {
    if s == [] || IsSpace(k, s[0]) then 0 else 1 + WordLength(k, s[1..])
  }

  /** The maximal runs of non-space characters of s, in order: Python's
      str.split(), and Java's split("\\s+") of a trimmed line (such a line
      starts with no separator, so split yields no leading empty string, and
      split drops trailing empty strings). */
  function Words(k: Spaces, s: string): (ws: seq<string>)
    ensures forall j :: 0 <= j < |ws| ==> ws[j] != [] && NoSpace(k, ws[j])
    decreases |s|
  {
    if s == [] then []
    else if IsSpace(k, s[0]) then Words(k, s[1..])
    else
      var n := WordLength(k, s);
      [s[..n]] + Words(k, s[n..])
  }

  /** The words joined by single spaces, as " ".join(...) and the generators'
      loops write a line of numbers. */
  function Unwords(ws: seq<string>): string
    decreases |ws|
  {
    if ws == [] then [] else if |ws| == 1 then ws[0] else ws[0] + " " + Unwords(ws[1..])
  }

  /** A word followed by the end of the line or by a space is read as that
      word, then the words of the rest. */
  lemma WordsOfWord(k: Spaces, w: string, rest: string)
    requires w != [] && NoSpace(k, w) && (rest == [] || IsSpace(k, rest[0]))
    ensures Words(k, w + rest) == [w] + Words(k, rest)
  {
    var s := w + rest;
    assert s[..|w|] == w && s[|w|..] == rest;
  }

  /** Splitting a line of words joined by spaces gives the words back. */
  lemma {:induction false} WordsUnwords(k: Spaces, ws: seq<string>)
    requires forall j :: 0 <= j < |ws| ==> ws[j] != [] && NoSpace(k, ws[j])
    ensures Words(k, Unwords(ws)) == ws
    decreases |ws|
  {
    if |ws| == 1 {
      WordsOfWord(k, ws[0], []);
      assert ws[0] + [] == ws[0];
    } else if |ws| > 1 {
      var tail := Unwords(ws[1..]);
      assert ws[0] + " " + tail == ws[0] + (" " + tail);
      WordsOfWord(k, ws[0], " " + tail);
      assert (" " + tail)[1..] == tail;
      WordsUnwords(k, ws[1..]);
    }
  }

  /** The numerals of a list of integers, in order. */
  function Numerals(ns: seq<int>): (ss: seq<string>)
    ensures |ss| == |ns| && forall j :: 0 <= j < |ss| ==> ss[j] == IntToString(ns[j]) && IsNumeral(ss[j])
    decreases |ns|
  {
    if ns == [] then [] else [IntToString(ns[0])] + Numerals(ns[1..])
  }

  /** The numerals of a list, its last one split off. */
  lemma {:induction false} NumeralsSnoc(ns: seq<int>)
    requires ns != []
    ensures Numerals(ns) == Numerals(ns[..|ns| - 1]) + [IntToString(ns[|ns| - 1])]
    decreases |ns|
  {
    var last := IntToString(ns[|ns| - 1]);
    if |ns| == 1 {
      assert Numerals(ns[..0]) == [];
      assert Numerals(ns) == [last] + Numerals([]);
    } else {
      var tl := ns[1..];
      NumeralsSnoc(tl);
      assert tl[..|tl| - 1] == ns[..|ns| - 1][1..];
      assert Numerals(ns[..|ns| - 1]) == [IntToString(ns[0])] + Numerals(tl[..|tl| - 1]);
      assert Numerals(ns) == [IntToString(ns[0])] + (Numerals(tl[..|tl| - 1]) + [last]);
    }
  }

  /** A line of numerals joined by spaces splits back into those numerals. */
  lemma WordsOfNumerals(k: Spaces, ns: seq<int>)
    ensures Words(k, Unwords(Numerals(ns))) == Numerals(ns)
  {
    var ss := Numerals(ns);
    forall j | 0 <= j < |ss| ensures ss[j] != [] && NoSpace(k, ss[j]) {
      NumeralPlain(k, ss[j]);
    }
    WordsUnwords(k, ss);
  }

  /** Joined words start with the first word's first character and end with
      the last word's last character. */
  lemma {:induction false} UnwordsEnds(ws: seq<string>)
    requires ws != [] && forall j :: 0 <= j < |ws| ==> ws[j] != []
    ensures var s := Unwords(ws); var w := ws[|ws| - 1];
      s != [] && s[0] == ws[0][0] && s[|s| - 1] == w[|w| - 1]
    decreases |ws|
  {
    if |ws| > 1 {
      UnwordsEnds(ws[1..]);
    }
  }

  /** A character other than the space that no word holds is not in the
      joined line. */
  lemma {:induction false} UnwordsAvoids(ws: seq<string>, c: char)
    requires c != ' ' && forall j :: 0 <= j < |ws| ==> c !in ws[j]
    ensures c !in Unwords(ws)
    decreases |ws|
  {
    if |ws| > 1 {
      UnwordsAvoids(ws[1..], c);
      assert Unwords(ws) == ws[0] + (" " + Unwords(ws[1..]));
    }
  }

  /** A line of numerals joined by spaces: no '#', empty only for no numbers,
      and it starts and ends with a non-space. */
  lemma NumeralLinePlain(k: Spaces, ns: seq<int>)
    ensures var s := Unwords(Numerals(ns));
      '#' !in s && (s == [] <==> ns == []) && (s == [] || (!IsSpace(k, s[0]) && !IsSpace(k, s[|s| - 1])))
  {
    var ss := Numerals(ns);
    forall j | 0 <= j < |ss| ensures ss[j] != [] && '#' !in ss[j] && NoSpace(k, ss[j]) {
      NumeralPlain(k, ss[j]);
    }
    UnwordsAvoids(ss, '#');
    if ss != [] {
      UnwordsEnds(ss);
    }
  }

  /** Integer.parseInt(s): an optional '-' or '+' followed by at least one
      digit, the value fitting an int; None where it throws
      NumberFormatException.  Only ASCII digits are modelled. */
  function JavaParseInt(s: string): (r: Option<int>)
    ensures r.Some? ==> InInt(r.value)
    ensures r.Some? ==> s != [] && forall i :: 0 < i < |s| ==> IsDigit(s[i])
  {
    if s == [] then None
    else
      var digits := if s[0] == '-' || s[0] == '+' then s[1..] else s;
      if digits == [] || !AllDigits(digits) then None
      else
        var m: int := DigitsValue(digits);
        var v := if s[0] == '-' then -m else m;
        if InInt(v) then Some(v) else None
  }

  /** Integer.parseInt reads back every int printed in decimal, and throws
      NumberFormatException on every other printed integer. */
  lemma JavaParseIntShow(n: int)
    ensures JavaParseInt(IntToString(n)) == if InInt(n) then Some(n) else None
  {
    var s := IntToString(n);
    if n < 0 {
      assert s[1..] == NatToDigits(-n);
      NatToDigitsValue(-n);
    } else {
      NatToDigitsValue(n);
    }
  }

  /** The digit part int() accepts: digits, with single underscores between
      two digits. */
  predicate PyDigitPart(b: string)
    ensures PyDigitPart(b) ==> b != [] && DigitsOrUnderscores(b) && b[|b| - 1] != '_'
    decreases |b|
  {
    b != [] && IsDigit(b[0]) &&
    (|b| == 1 || if b[1] == '_' then PyDigitPart(b[2..]) else PyDigitPart(b[1..]))
  }

  predicate DigitsOrUnderscores(b: string)
  {
    forall i :: 0 <= i < |b| ==> IsDigit(b[i]) || b[i] == '_'
  }

  /** The digits of b with its underscores left out. */
  function DropUnderscores(b: string): (d: string)
    requires DigitsOrUnderscores(b)
    ensures AllDigits(d) && |d| <= |b|
    ensures AllDigits(b) ==> d == b
    decreases |b|
  {
    if b == [] then []
    else
      var d := DropUnderscores(b[..|b| - 1]);
      if b[|b| - 1] == '_' then d else d + [b[|b| - 1]]
  }

  /** The default of sys.get_int_max_str_digits(): int() of a decimal
      string with more digits than this raises ValueError (underscores and
      the sign are not counted). */
  const PyMaxStrDigits := 4300

  /** int(t) for a token t holding no white space: an optional sign, then a
      digit part of at most PyMaxStrDigits digits; None where it raises
      ValueError.  Only ASCII digits are modelled. */
  function PyParseInt(t: string): (r: Option<int>)
    ensures r.Some? ==> t != [] && forall i :: 0 < i < |t| ==> IsDigit(t[i]) || t[i] == '_'
  {
    if t == [] then None
    else
      var body := if t[0] == '-' || t[0] == '+' then t[1..] else t;
      if !PyDigitPart(body) then None
      else
        var d := DropUnderscores(body);
        if |d| > PyMaxStrDigits then None
        else
          var m: int := DigitsValue(d);
          Some(if t[0] == '-' then -m else m)
  }

  /** The number of decimal digits of n, its sign not counted. */
  function DigitCount(n: int): nat
  {
    |NatToDigits(if n < 0 then -n else n)|
  }

  /** int() reads back every integer printed in decimal with at most
      PyMaxStrDigits digits, and raises ValueError on every longer one. */
  lemma PyParseIntShow(n: int)
    ensures PyParseInt(IntToString(n)) == if DigitCount(n) <= PyMaxStrDigits then Some(n) else None
  {
    var s := IntToString(n);
    if n < 0 {
      var m: int := -n;
      var d := NatToDigits(m);
      assert s == "-" + d && s[1..] == d;
      NatToDigitsValue(m);
      PyParseSigned(s, m);
    } else {
      PyDigitsPlain(s);
      NatToDigitsValue(n);
    }
  }

  /** int() of a minus sign followed by digits. */
  lemma PyParseSigned(t: string, m: nat)
    requires |t| >= 2 && t[0] == '-' && AllDigits(t[1..]) && DigitsValue(t[1..]) == m
    ensures |t| - 1 <= PyMaxStrDigits ==> PyParseInt(t) == Some(-(m as int))
    ensures |t| - 1 > PyMaxStrDigits ==> PyParseInt(t) == None
  {
    PyDigitsPlain(t[1..]);
  }

  function Pow10(k: nat): nat
  {
    if k == 0 then 1 else 10 * Pow10(k - 1)
  }

  /** A number below 10^k, k >= 1, has at most k digits. */
  lemma {:induction false} NatToDigitsLength(n: nat, k: nat)
    requires 1 <= k && n < Pow10(k)
    ensures |NatToDigits(n)| <= k
    decreases k
  {
    if n >= 10 {
      assert n / 10 < Pow10(k - 1);
      NatToDigitsLength(n / 10, k - 1);
    }
  }

  /** An int has at most ten digits, far below int()'s limit. */
  lemma IntFitsPyDigits(n: int)
    requires InInt(n)
    ensures DigitCount(n) <= 10 <= PyMaxStrDigits
  {
    assert Pow10(10) == 10_000_000_000;
    NatToDigitsLength(if n < 0 then -n else n, 10);
  }

  /** A run of digits is a digit part of its own, with nothing to drop. */
  lemma {:induction false} PyDigitsPlain(d: string)
    requires d != [] && AllDigits(d)
    ensures PyDigitPart(d) && DropUnderscores(d) == d
    decreases |d|
  {
    if |d| > 1 {
      assert AllDigits(d[1..]);
      PyDigitsPlain(d[1..]);
    }
  }

  /** p occurs in s from position i. */
  predicate OccursAt(s: string, p: string, i: nat)
  {
    i + |p| <= |s| && s[i..i + |p|] == p
  }

  /** s.find(p) != npos: p occurs in s at some position. */
  function Contains(s: string, p: string): (r: bool)
    ensures r <==> exists i: nat :: OccursAt(s, p, i)
    decreases |s|
  {
    if p <= s then
      assert OccursAt(s, p, 0);
      true
    else if s == [] then false
    else
      var r := Contains(s[1..], p);
      assert r ==> exists i: nat :: OccursAt(s, p, i) by {
        if r {
          var i: nat :| OccursAt(s[1..], p, i);
          assert s[i + 1..i + 1 + |p|] == s[1..][i..i + |p|];
          assert OccursAt(s, p, i + 1);
        }
      }
      assert (exists i: nat :: OccursAt(s, p, i)) ==> r by {
        if i: nat :| OccursAt(s, p, i) {
          assert i != 0;
          assert s[1..][i - 1..i - 1 + |p|] == s[i..i + |p|];
          assert OccursAt(s[1..], p, i - 1);
        }
      }
      r
  }

  /** The number of leading digits of s. */
  function DigitRun(s: string): (n: nat)
    ensures n <= |s| && (forall i :: 0 <= i < n ==> IsDigit(s[i])) && (n < |s| ==> !IsDigit(s[n]))
    decreases |s|
  {
    if s == [] || !IsDigit(s[0]) then 0 else 1 + DigitRun(s[1..])
  }

  /** One `iss >> x` into an int: skip white space, then read a number.  On
      success, the value and the rest of the line after its last digit. */
  function CppExtractInt(s: string): (r: Option<(int, string)>)
    ensures r.Some? ==> InInt(r.value.0) && |r.value.1| < |s|
    decreases |s|
  {
    if s != [] && IsSpace(AsciiSpace, s[0]) then CppExtractInt(s[1..]) else CppReadNumber(s)
  }

  /** An optional sign and the longest run of digits after it, from the start
      of t; None when there is no digit or the value does not fit an int. */
  function CppReadNumber(t: string): (r: Option<(int, string)>)
    ensures r.Some? ==> InInt(r.value.0) && |r.value.1| < |t|
  {
    var u := if t != [] && (t[0] == '-' || t[0] == '+') then t[1..] else t;
    var n := DigitRun(u);
    if n == 0 then None
    else
      var m: int := DigitsValue(u[..n]);
      var v := if t[0] == '-' then -m else m;
      if InInt(v) then Some((v, u[n..])) else None
  }

  /** `while (iss >> value)`: every int extracted before the first failure. */
  function CppExtractAll(s: string): (vs: seq<int>)
    ensures forall i :: 0 <= i < |vs| ==> InInt(vs[i])
    decreases |s|
  {
    match CppExtractInt(s)
    case None => []
    case Some((v, rest)) => [v] + CppExtractAll(rest)
  }

  /** `iss >> a >> b >> c >> d`: the four ints, or None when one of the
      extractions fails.  Each `>>` goes on from where the previous one
      stopped, exactly as the extractions of `while (iss >> value)` do, so the
      four are the first four of those. */
  function CppExtractFour(s: string): (r: Option<(int, int, int, int)>)
    ensures r.Some? ==> InInt(r.value.0) && InInt(r.value.1) && InInt(r.value.2) && InInt(r.value.3)
  {
    var vs := CppExtractAll(s);
    if |vs| < 4 then None else Some((vs[0], vs[1], vs[2], vs[3]))
  }

  /** The digit run of digits followed by a non-digit is those digits. */
  lemma DigitRunOf(d: string, rest: string)
    requires AllDigits(d) && (rest == [] || !IsDigit(rest[0]))
    ensures DigitRun(d + rest) == |d|
  {
    var u := d + rest;
    assert forall i :: 0 <= i < |d| ==> u[i] == d[i];
    assert rest != [] ==> u[|d|] == rest[0];
  }

  /** Digits followed by a non-digit, read as a number without a sign. */
  lemma CppReadUnsigned(d: string, rest: string)
    requires d != [] && AllDigits(d) && (rest == [] || !IsDigit(rest[0])) && DigitsValue(d) <= IntMax
    ensures CppReadNumber(d + rest) == Some((DigitsValue(d), rest))
  {
    var u := d + rest;
    DigitRunOf(d, rest);
    assert u[..|d|] == d && u[|d|..] == rest;
  }

  /** '-', then digits followed by a non-digit, read as a negative number. */
  lemma CppReadNegative(d: string, rest: string)
    requires d != [] && AllDigits(d) && (rest == [] || !IsDigit(rest[0])) && DigitsValue(d) <= -IntMin
    ensures CppReadNumber("-" + (d + rest)) == Some((-(DigitsValue(d) as int), rest))
  {
    var u := d + rest;
    assert ("-" + u)[1..] == u;
    DigitRunOf(d, rest);
    assert u[..|d|] == d && u[|d|..] == rest;
  }

  /** `>>` reads a printed int that is followed by the end of the line or by
      a non-digit, and leaves that rest. */
  lemma CppExtractShow(n: int, rest: string)
    requires InInt(n) && (rest == [] || !IsDigit(rest[0]))
    ensures CppExtractInt(IntToString(n) + rest) == Some((n, rest))
  {
    var s := IntToString(n) + rest;
    assert s[0] == IntToString(n)[0] && !IsSpace(AsciiSpace, s[0]);
    assert CppExtractInt(s) == CppReadNumber(s);
    if n < 0 {
      CppShowNegative(n, rest);
    } else {
      NatToDigitsValue(n);
      CppReadUnsigned(NatToDigits(n), rest);
    }
  }

  lemma CppShowNegative(n: int, rest: string)
    requires IntMin <= n < 0 && (rest == [] || !IsDigit(rest[0]))
    ensures CppReadNumber(IntToString(n) + rest) == Some((n, rest))
  {
    var m: int := -n;
    var d := NatToDigits(m);
    NatToDigitsValue(m);
    assert IntToString(n) + rest == "-" + (d + rest);
    CppReadNegative(d, rest);
  }

  /** `>>` skips white space before a number. */
  lemma CppExtractSpace(s: string)
    ensures CppExtractInt(" " + s) == CppExtractInt(s)
  {
    assert (" " + s)[1..] == s;
  }

  /** The loop's first successful extraction, then the rest of the loop. */
  lemma CppExtractAllCons(s: string, v: int, rest: string)
    requires CppExtractInt(s) == Some((v, rest))
    ensures CppExtractAll(s) == [v] + CppExtractAll(rest)
  {
  }

  /** A line of one numeral followed by a space and more text. */
  lemma CppExtractNumeralThen(n: int, tail: string)
    requires InInt(n)
    ensures CppExtractAll(IntToString(n) + (" " + tail)) == [n] + CppExtractAll(tail)
  {
    CppExtractShow(n, " " + tail);
    CppExtractAllCons(IntToString(n) + (" " + tail), n, " " + tail);
    CppExtractSpace(tail);
  }

  /** A line holding one numeral. */
  lemma CppExtractNumeralAlone(n: int)
    requires InInt(n)
    ensures CppExtractAll(IntToString(n)) == [n]
  {
    var h := IntToString(n);
    CppExtractShow(n, []);
    assert h + [] == h;
    CppExtractAllCons(h, n, []);
    assert CppExtractInt([]) == None;
  }

  /** A line of two or more numerals: the first, then those of the rest. */
  lemma CppExtractNumeralsCons(ns: seq<int>)
    requires |ns| > 1 && InInt(ns[0])
    ensures CppExtractAll(Unwords(Numerals(ns))) == [ns[0]] + CppExtractAll(Unwords(Numerals(ns[1..])))
  {
    var tail := Unwords(Numerals(ns[1..]));
    assert Numerals(ns)[1..] == Numerals(ns[1..]);
    assert Unwords(Numerals(ns)) == IntToString(ns[0]) + (" " + tail);
    CppExtractNumeralThen(ns[0], tail);
  }

  /** Extracting ints from a line of numerals joined by spaces gives the
      numbers back. */
  lemma {:induction false} CppExtractNumerals(ns: seq<int>)
    requires forall i :: 0 <= i < |ns| ==> InInt(ns[i])
    ensures CppExtractAll(Unwords(Numerals(ns))) == ns
    decreases |ns|
  {
    if |ns| == 1 {
      CppExtractNumeralAlone(ns[0]);
    } else if |ns| > 1 {
      CppExtractNumerals(ns[1..]);
      CppExtractNumeralsCons(ns);
    } else {
      assert CppExtractInt([]) == None;
    }
  }
}
