/** The text forms a matrix is shown in: Python's str() of an int, str.join,
    and the inverse operations (split, digit parsing) that show the
    rendering loses nothing. */
module Text {

  predicate IsDigit(c: char)
  {
    '0' <= c <= '9'
  }

  function DigitChar(d: nat): (c: char)
    requires d < 10
    ensures IsDigit(c) && c as int - '0' as int == d
  {
    (d + '0' as int) as char
  }

  /** Decimal digits of n, most significant first, as Python's str() writes
      a non-negative int: never empty, and a leading '0' only for 0 itself */
  function NatStr(n: nat): (s: string)
    ensures |s| > 0
    ensures forall k :: 0 <= k < |s| ==> IsDigit(s[k])
    ensures s[0] == '0' <==> n == 0
    decreases n
  {
    if n < 10 then [DigitChar(n)] else NatStr(n / 10) + [DigitChar(n % 10)]
  }

  /** Python's str() of an int: a '-' before the digits of a negative number */
  function IntStr(n: int): (s: string)
    ensures |s| > 0
    ensures forall k :: 0 <= k < |s| ==> IsDigit(s[k]) || (k == 0 && s[k] == '-')
    ensures s[0] == '-' <==> n < 0
  {
    if n < 0 then "-" + NatStr(-n) else NatStr(n)
  }

  /** Reads decimal digits back, most significant first */
  function ParseDigits(s: string): int
  {
    if s == [] then 0 else ParseDigits(s[..|s| - 1]) * 10 + (s[|s| - 1] as int - '0' as int)
  }

  /** Reads back an optionally negative decimal number */
  function ParseInt(s: string): int
  {
    if |s| > 0 && s[0] == '-' then -ParseDigits(s[1..]) else ParseDigits(s)
  }

  lemma {:induction false} NatStrRoundTrip(n: nat)
    ensures ParseDigits(NatStr(n)) == n
    decreases n
  {
    if n >= 10 {
      var s := NatStr(n);
      assert s[..|s| - 1] == NatStr(n / 10);
      NatStrRoundTrip(n / 10);
    }
  }

  /** str() of an int loses nothing: the number can be read back */
  lemma IntStrRoundTrip(n: int)
    ensures ParseInt(IntStr(n)) == n
  {
    if n < 0 {
      assert IntStr(n)[1..] == NatStr(-n);
      NatStrRoundTrip(-n);
    } else {
      NatStrRoundTrip(n);
    }
  }

  /** sep.join(parts): the parts in order with one sep between neighbours and
      none at either end; "" for no parts */
  function Join(parts: seq<string>, sep: char): string
  {
    if |parts| == 0 then ""
    else if |parts| == 1 then parts[0]
    else parts[0] + [sep] + Join(parts[1..], sep)
  }

  /** s.split(sep): the pieces between consecutive occurrences of sep */
  function Split(s: string, sep: char): (parts: seq<string>)
    ensures |parts| > 0
  {
    if |s| == 0 then [""]
    else if s[0] == sep then [""] + Split(s[1..], sep)
    else
      var rest := Split(s[1..], sep);
      [[s[0]] + rest[0]] + rest[1..]
  }

  lemma {:induction false} SplitWithout(p: string, sep: char)
    requires sep !in p
    ensures Split(p, sep) == [p]
  {
    if |p| > 0 {
      SplitWithout(p[1..], sep);
      assert [p[0]] + p[1..] == p;
    }
  }

  lemma {:induction false} SplitFirst(p: string, sep: char, t: string)
    requires sep !in p
    ensures Split(p + [sep] + t, sep) == [p] + Split(t, sep)
  {
    var s := p + [sep] + t;
    if |p| == 0 {
      assert s[1..] == t;
    } else {
      assert s[1..] == p[1..] + [sep] + t;
      SplitFirst(p[1..], sep, t);
      assert [p[0]] + p[1..] == p;
    }
  }

  /** split undoes join when no part holds the separator */
  lemma {:induction false} SplitJoin(parts: seq<string>, sep: char)
    requires |parts| > 0
    requires forall i :: 0 <= i < |parts| ==> sep !in parts[i]
    ensures Split(Join(parts, sep), sep) == parts
  {
    if |parts| == 1 {
      SplitWithout(parts[0], sep);
    } else {
      SplitJoin(parts[1..], sep);
      SplitFirst(parts[0], sep, Join(parts[1..], sep));
      assert [parts[0]] + parts[1..] == parts;
    }
  }

  /** A character in neither the parts nor the separator is not in their join */
  lemma {:induction false} JoinAvoids(parts: seq<string>, sep: char, c: char)
    requires c != sep
    requires forall i :: 0 <= i < |parts| ==> c !in parts[i]
    ensures c !in Join(parts, sep)
  {
    if |parts| > 1 {
      JoinAvoids(parts[1..], sep, c);
    }
  }

  /** The elements of one row, each as str() writes it */
  function Words(row: seq<int>): seq<string>
  {
    seq(|row|, k requires 0 <= k < |row| => IntStr(row[k]))
  }

  /** ' '.join(map(str, row)) */
  function Line(row: seq<int>): string
  {
    Join(Words(row), ' ')
  }

  /** One Line per row, in order */
  function Lines(g: seq<seq<int>>): seq<string>
  {
    seq(|g|, i requires 0 <= i < |g| => Line(g[i]))
  }

  /** '\n'.join(' '.join(map(str, row)) for row in g): the matrix as str() shows it */
  function Show(g: seq<seq<int>>): string
  {
    Join(Lines(g), '\n')
  }

  /** Reads one shown row back */
  function ParseLine(line: string): seq<int>
  {
    var ws := Split(line, ' ');
    seq(|ws|, k requires 0 <= k < |ws| => ParseInt(ws[k]))
  }

  /** Reads a shown matrix back: lines at '\n', elements at ' ' */
  function Parse(s: string): seq<seq<int>>
  {
    var ls := Split(s, '\n');
    seq(|ls|, i requires 0 <= i < |ls| => ParseLine(ls[i]))
  }

  lemma ParseLineOfLine(row: seq<int>)
    requires |row| > 0
    ensures ParseLine(Line(row)) == row
  {
    SplitJoin(Words(row), ' ');
    forall k | 0 <= k < |row| ensures ParseLine(Line(row))[k] == row[k] {
      IntStrRoundTrip(row[k]);
    }
  }

  /** Showing a matrix with at least one row, and at least one element in
      every row, loses nothing: its rows and elements can be read back */
  lemma ShowRoundTrip(g: seq<seq<int>>)
    requires |g| > 0
    requires forall i :: 0 <= i < |g| ==> |g[i]| > 0
    ensures Parse(Show(g)) == g
  {
    forall i | 0 <= i < |g| ensures '\n' !in Lines(g)[i] {
      JoinAvoids(Words(g[i]), ' ', '\n');
    }
    SplitJoin(Lines(g), '\n');
    forall i | 0 <= i < |g| ensures Parse(Show(g))[i] == g[i] {
      ParseLineOfLine(g[i]);
    }
  }

  /** Two matrices of non-empty rows that show the same are the same */
  lemma ShowInjective(g: seq<seq<int>>, h: seq<seq<int>>)
    requires |g| > 0 && forall i :: 0 <= i < |g| ==> |g[i]| > 0
    requires |h| > 0 && forall i :: 0 <= i < |h| ==> |h[i]| > 0
    requires Show(g) == Show(h)
    ensures g == h
  {
    ShowRoundTrip(g);
    ShowRoundTrip(h);
  }

  /** The 1 x 1 matrix holding 5 shows as "5": no separator at either end */
  lemma ShowSingle()
    ensures Show([[5]]) == "5"
  {
  }

  /** f'Matrix({rows}, {cols})' */
  function Describe(rows: nat, cols: nat): string
  {
    "Matrix(" + IntStr(rows) + ", " + IntStr(cols) + ")"
  }

  /** The text between "Matrix(" and the closing ")" splits at ',' into the two numbers */
  lemma DescribeFields(r: nat, c: nat)
    ensures var s := Describe(r, c);
      |s| >= 8 && Split(s[7..|s| - 1], ',') == [IntStr(r), " " + IntStr(c)]
  {
    var s, t := Describe(r, c), " " + IntStr(c);
    assert s[7..|s| - 1] == IntStr(r) + [','] + t;
    SplitFirst(IntStr(r), ',', t);
    SplitWithout(t, ',');
  }

  /** The short form pins down both dimensions */
  lemma DescribeInjective(r1: nat, c1: nat, r2: nat, c2: nat)
    requires Describe(r1, c1) == Describe(r2, c2)
    ensures r1 == r2 && c1 == c2
  {
    DescribeFields(r1, c1);
    DescribeFields(r2, c2);
    var t1, t2 := " " + IntStr(c1), " " + IntStr(c2);
    assert IntStr(r1) == IntStr(r2) && t1 == t2;
    assert IntStr(c1) == t1[1..] && IntStr(c2) == t2[1..];
    IntStrRoundTrip(r1);
    IntStrRoundTrip(r2);
    IntStrRoundTrip(c1);
    IntStrRoundTrip(c2);
  }
}
