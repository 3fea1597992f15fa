/** The in-memory score table the engines read: rows keyed by column name, with cells that are
 *  missing (None/NaN), boolean, numeric or text. Also the two column matchers, the numeric coercion
 *  `pd.to_numeric(errors="coerce")`, the string rendering `astype(str)`, and the grouping order
 *  of `groupby` keys. */
module Frames {
  import opened Wrappers
  import opened Text
  import opened Seqs
  import opened Numeric

  datatype Cell = Missing | Bool(b: bool) | Num(n: real) | Str(s: string)

  type Row = map<string, Cell>

  datatype Frame = Frame(columns: seq<string>, rows: seq<Row>)

  /** The cell at `col`, missing when the row has no such column. */
  function Get(row: Row, col: string): Cell
  {
    if col in row then row[col] else Missing
  }

  function CellOf(v: Option<real>): Cell
  {
    match v
    case Some(x) => Num(x)
    case None => Missing
  }

  /** The numeric value of a cell already coerced to numbers. */
  function NumOf(c: Cell): (r: Option<real>)
    ensures r.Some? <==> c.Num?
  {
    if c.Num? then Some(c.n) else None
  }

  // ---------------------------------------------------------------------------------------------
  // Number parsing and rendering

  /** An exponent suffix `e[±]digits` or `E[±]digits` spanning all of `s`, as its signed power. */
  function ParseExponent(s: string): (r: Option<int>)
    ensures r.Some? ==> |s| >= 2 && s[0] in {'e', 'E'}
  {
    if |s| < 2 || (s[0] != 'e' && s[0] != 'E') then None
    else
      var signed := s[1] == '-' || s[1] == '+';
      var d := if signed then s[2..] else s[1..];
      if d == [] || LeadingDigits(d) != d then None
      else if s[1] == '-' then Some(-(DigitsToNat(d) as int))
      else Some(DigitsToNat(d) as int)
  }

  /** `m * 10^e` for a signed power `e`, one factor of ten at a time. */
  function Shift10(m: real, e: int): real
    decreases if e < 0 then -e else e
  {
    if e == 0 then m else if e > 0 then Shift10(m, e - 1) * 10.0 else Shift10(m, e + 1) / 10.0
  }

  /** The mantissa `m` followed by `tail`, which is empty or a whole exponent suffix. */
  function WithExponent(m: real, tail: string): (r: Option<real>)
    ensures tail == [] ==> r == Some(m)
  {
    if tail == [] then Some(m)
    else match ParseExponent(tail)
      case Some(e) => Some(Shift10(m, e))
      case None => None
  }

  /** The value of the digits after a decimal point: `0.d1d2...`. */
  function FracValue(fp: string): real
    requires forall i :: 0 <= i < |fp| ==> IsDigit(fp[i])
  {
    if fp == [] then 0.0 else (DigitValue(fp[0]) as real + FracValue(fp[1..])) / 10.0
  }

  /** The value of `ip.fp`. */
  function PointValue(ip: string, fp: string): real
    requires forall i :: 0 <= i < |ip| ==> IsDigit(ip[i])
    requires forall i :: 0 <= i < |fp| ==> IsDigit(fp[i])
  {
    DigitsToNat(ip) as real + FracValue(fp)
  }

  /** `digits[.digits][e[±]digits]` with at least one mantissa digit, as `float()` reads it. */
  function ParseUnsigned(s: string): Option<real>
  {
    var ip := LeadingDigits(s);
    var rest := s[|ip|..];
    if rest != [] && rest[0] == '.' then
      var fp := LeadingDigits(rest[1..]);
      if ip == [] && fp == [] then None
      else WithExponent(PointValue(ip, fp), rest[1 + |fp|..])
    else if ip == [] then None
    else WithExponent(DigitsToNat(ip) as real, rest)
  }

  /** A signed decimal with surrounding whitespace, as `pd.to_numeric` reads a string. */
  function ParseDecimal(s: string): Option<real>
  {
    ParseSigned(Trim(s))
  }

  /** An optional sign followed by an unsigned decimal. */
  function ParseSigned(t: string): Option<real>
  {
    var signed := t != [] && (t[0] == '-' || t[0] == '+');
    match ParseUnsigned(if signed then t[1..] else t)
    case Some(x) => Some(if signed && t[0] == '-' then -x else x)
    case None => None
  }

  /** `pd.to_numeric(errors="coerce")` on one cell: unparseable text becomes missing. */
  function ToNumeric(c: Cell): (r: Option<real>)
    ensures c.Missing? ==> r.None?
    ensures c.Num? ==> r == Some(c.n)
  {
    match c
    case Missing => None
    case Bool(b) => Some(if b then 1.0 else 0.0)
    case Num(x) => Some(x)
    case Str(s) => ParseDecimal(s)
  }

  lemma LeadingDigitsOfDigits(s: string)
    requires forall i :: 0 <= i < |s| ==> IsDigit(s[i])
    ensures LeadingDigits(s) == s
  {
  }

  lemma ParseUnsignedOfDigits(d: string)
    requires d != [] && forall i :: 0 <= i < |d| ==> IsDigit(d[i])
    ensures ParseUnsigned(d) == Some(DigitsToNat(d) as real)
  {
    LeadingDigitsOfDigits(d);
    assert d[|d|..] == [];
  }

  /** Rendering a whole number and coercing it back gives the number. */
  lemma ParseIntToString(i: int)
    ensures ParseDecimal(IntToString(i)) == Some(i as real)
  {
    if i < 0 {
      ParseNegative(i);
    } else {
      NatToStringSpec(i);
      ParseDigits(NatToString(i));
    }
  }

  lemma ParseNegative(i: int)
    requires i < 0
    ensures ParseDecimal(IntToString(i)) == Some(i as real)
  {
    NegatedNatString(-i, IntToString(i));
  }

  lemma NegatedNatString(n: nat, t: string)
    requires t == "-" + NatToString(n)
    ensures ParseDecimal(t) == Some(-(n as real))
  {
    UnsignedNatString(n);
    ParseMinus(NatToString(n), n as real, t);
  }

  /** The decimal text of a natural number reads as that number and ends in a digit. */
  lemma UnsignedNatString(n: nat)
    ensures var d := NatToString(n);
      d != [] && !IsSpace(d[|d| - 1]) && ParseUnsigned(d) == Some(n as real)
  {
    NatToStringSpec(n);
    ParseUnsignedOfDigits(NatToString(n));
  }

  /** A minus sign before an unsigned number reads as the negated number. */
  lemma ParseMinus(u: string, x: real, t: string)
    requires u != [] && !IsSpace(u[|u| - 1]) && ParseUnsigned(u) == Some(x)
    requires t == "-" + u
    ensures ParseDecimal(t) == Some(-x)
  {
    TrimMinus(u);
    SignedMinus(u, x);
    ParseTrimmed("-" + u);
  }

  lemma TrimMinus(u: string)
    requires u != [] && !IsSpace(u[|u| - 1])
    ensures Trim("-" + u) == "-" + u
  {
    var t := "-" + u;
    assert t[|t| - 1] == u[|u| - 1];
    TrimNoop(t);
  }

  lemma SignedMinus(u: string, x: real)
    requires ParseUnsigned(u) == Some(x)
    ensures ParseSigned("-" + u) == Some(-x)
  {
    assert ("-" + u)[1..] == u;
  }

  /** A text that is its own trim reads as its signed number. */
  lemma ParseTrimmed(t: string)
    requires Trim(t) == t
    ensures ParseDecimal(t) == ParseSigned(t)
  {
  }

  lemma {:induction false} LeadingDigitsBefore(d: string, x: string)
    requires forall i :: 0 <= i < |d| ==> IsDigit(d[i])
    requires x != [] && !IsDigit(x[0])
    ensures LeadingDigits(d + x) == d
  {
    if d != [] {
      LeadingDigitsBefore(d[1..], x);
      assert (d + x)[1..] == d[1..] + x;
    }
  }

  /** Scientific notation `<digits>e<digits>` reads as the mantissa times ten to the exponent. */
  lemma ParseScientific(d: string, kd: string)
    requires d != [] && forall i :: 0 <= i < |d| ==> IsDigit(d[i])
    requires kd != [] && forall i :: 0 <= i < |kd| ==> IsDigit(kd[i])
    ensures ParseDecimal(d + "e" + kd) == Some(Shift10(DigitsToNat(d) as real, DigitsToNat(kd)))
  {
    var tail := "e" + kd;
    assert d + "e" + kd == d + tail;
    ExponentOfDigits(kd);
    ParseDigitsThen(d, tail);
  }

  lemma ExponentOfDigits(kd: string)
    requires kd != [] && forall i :: 0 <= i < |kd| ==> IsDigit(kd[i])
    ensures var tail := "e" + kd;
      && !IsSpace(tail[|tail| - 1]) && ParseExponent(tail) == Some(DigitsToNat(kd))
  {
    LeadingDigitsOfDigits(kd);
    var tail := "e" + kd;
    assert tail[1..] == kd;
    assert tail[|tail| - 1] == kd[|kd| - 1];
  }

  /** A run of digits reads as the number it spells. */
  lemma ParseDigits(d: string)
    requires d != [] && forall i :: 0 <= i < |d| ==> IsDigit(d[i])
    ensures ParseDecimal(d) == Some(DigitsToNat(d) as real)
  {
    TrimNoop(d);
    ParseUnsignedOfDigits(d);
    SignedOfDigit(d);
    ParseTrimmed(d);
  }

  /** A decimal fraction `<digits>.<digits>` reads as its value. */
  lemma ParsePointDigits(ip: string, fp: string)
    requires ip != [] && forall i :: 0 <= i < |ip| ==> IsDigit(ip[i])
    requires fp != [] && forall i :: 0 <= i < |fp| ==> IsDigit(fp[i])
    ensures ParseDecimal(ip + "." + fp) == Some(PointValue(ip, fp))
  {
    var s := ip + "." + fp;
    assert s[0] == ip[0] && s[|s| - 1] == fp[|fp| - 1];
    TrimNoop(s);
    UnsignedPoint(ip, fp);
    SignedOfDigit(s);
    ParseTrimmed(s);
  }

  lemma UnsignedPoint(ip: string, fp: string)
    requires ip != [] && forall i :: 0 <= i < |ip| ==> IsDigit(ip[i])
    requires fp != [] && forall i :: 0 <= i < |fp| ==> IsDigit(fp[i])
    ensures ParseUnsigned(ip + "." + fp) == Some(PointValue(ip, fp))
  {
    var rest := "." + fp;
    var s := ip + rest;
    assert ip + "." + fp == s;
    LeadingDigitsBefore(ip, rest);
    assert s[|ip|..] == rest;
    FractionPart(fp);
  }

  lemma FractionPart(fp: string)
    requires forall i :: 0 <= i < |fp| ==> IsDigit(fp[i])
    ensures var rest := "." + fp; LeadingDigits(rest[1..]) == fp && rest[1 + |fp|..] == []
  {
    var rest := "." + fp;
    assert rest[1..] == fp;
    LeadingDigitsOfDigits(fp);
  }

  /** A text that starts with a digit has no sign. */
  lemma SignedOfDigit(t: string)
    requires t != [] && IsDigit(t[0])
    ensures ParseSigned(t) == ParseUnsigned(t)
  {
  }

  /** Digits followed by a tail that starts with neither a digit nor a point. */
  lemma ParseDigitsThen(d: string, tail: string)
    requires d != [] && forall i :: 0 <= i < |d| ==> IsDigit(d[i])
    requires tail != [] && !IsDigit(tail[0]) && tail[0] != '.' && !IsSpace(tail[|tail| - 1])
    ensures ParseDecimal(d + tail) == WithExponent(DigitsToNat(d) as real, tail)
  {
    var s := d + tail;
    assert s[0] == d[0] && s[|s| - 1] == tail[|tail| - 1];
    TrimNoop(s);
    UnsignedDigitsThen(d, tail);
    SignedOfDigit(s);
    ParseTrimmed(s);
  }

  lemma UnsignedDigitsThen(d: string, tail: string)
    requires d != [] && forall i :: 0 <= i < |d| ==> IsDigit(d[i])
    requires tail != [] && !IsDigit(tail[0]) && tail[0] != '.'
    ensures ParseUnsigned(d + tail) == WithExponent(DigitsToNat(d) as real, tail)
  {
    LeadingDigitsBefore(d, tail);
    assert (d + tail)[|d|..] == tail;
  }


  /** Up to `k` decimal digits of a fraction in [0, 1). */
  function FracDigits(x: real, k: nat): string
    requires 0.0 <= x < 1.0
    decreases k
  {
    if k == 0 || x == 0.0 then ""
    else
      var d := (x * 10.0).Floor;
      assert 0 <= d < 10;
      [DigitChar(d)] + FracDigits(x * 10.0 - d as real, k - 1)
  }

  /** `str(x)` of a number: an integral value as an integer (a pandas int64 column), any other
   *  value with at most six decimal places. */
  function NumToString(x: real): string
  {
    var a := Abs(x);
    var w := a.Floor;
    var body := if a == w as real then NatToString(w) else NatToString(w) + "." + FracDigits(a - w as real, 6);
    if x < 0.0 then "-" + body else body
  }

  lemma NumToStringOfInt(i: int)
    ensures NumToString(i as real) == IntToString(i)
  {
    var a := Abs(i as real);
    var n: nat := if i < 0 then -i else i;
    assert a == n as real;
    assert a.Floor == n;
  }

  /** `astype(str)` of a cell: missing renders as "nan". */
  function CellString(c: Cell): string
  {
    match c
    case Missing => "nan"
    case Bool(b) => if b then "True" else "False"
    case Num(x) => NumToString(x)
    case Str(s) => s
  }

  // ---------------------------------------------------------------------------------------------
  // Column matching

  /** Index of the last column whose trimmed lower-case name is `key`, or -1. */
  function LastIndexWithNorm(columns: seq<string>, key: string): (r: int)
    ensures -1 <= r < |columns|
    ensures r >= 0 ==> Norm(columns[r]) == key
  {
    if columns == [] then -1
    else if Norm(columns[|columns| - 1]) == key then |columns| - 1
    else LastIndexWithNorm(columns[..|columns| - 1], key)
  }

  /** No column after the one `LastIndexWithNorm` finds normalises to the key. */
  lemma {:induction false} LastIndexWithNormSpec(columns: seq<string>, key: string)
    ensures forall j :: LastIndexWithNorm(columns, key) < j < |columns| ==> Norm(columns[j]) != key
  {
    if columns != [] && Norm(columns[|columns| - 1]) != key {
      var init := columns[..|columns| - 1];
      LastIndexWithNormSpec(init, key);
      assert forall j :: 0 <= j < |init| ==> init[j] == columns[j];
    }
  }

  /** `{str(c).lower().strip(): c for c in columns}.get(key)`: later columns win. */
  function LookupNorm(columns: seq<string>, key: string): (r: Option<string>)
    ensures r.Some? ==> r.value in columns && Norm(r.value) == key
  {
    var i := LastIndexWithNorm(columns, key);
    if i < 0 then None else Some(columns[i])
  }

  /** The lookup fails exactly when no column normalises to the key. */
  lemma LookupNormSpec(columns: seq<string>, key: string)
    ensures LookupNorm(columns, key).None? <==> forall j :: 0 <= j < |columns| ==> Norm(columns[j]) != key
  {
    LastIndexWithNormSpec(columns, key);
  }

  /** The shared matcher: the column of the first alias, lower-cased, that some column name matches
   *  after trimming and lower-casing. */
  function FindCol(columns: seq<string>, aliases: seq<string>): Option<string>
  {
    if aliases == [] then None
    else
      match LookupNorm(columns, Lower(aliases[0]))
      case Some(c) => Some(c)
      case None => FindCol(columns, aliases[1..])
  }

  /** The cleaner's matcher: as `FindCol`, but the aliases are compared as written. */
  function FindColumn(columns: seq<string>, aliases: seq<string>): Option<string>
  {
    if aliases == [] then None
    else
      match LookupNorm(columns, aliases[0])
      case Some(c) => Some(c)
      case None => FindColumn(columns, aliases[1..])
  }

  /** Some column matches alias `k` of the list (lower-cased when `lower`). */
  predicate AliasPresent(columns: seq<string>, aliases: seq<string>, k: int, lower: bool)
    requires 0 <= k < |aliases|
  {
    exists j :: 0 <= j < |columns| && Norm(columns[j]) == (if lower then Lower(aliases[k]) else aliases[k])
  }

  /** Alias `k` of a list is alias `k - 1` of its tail. */
  lemma AliasShift(columns: seq<string>, aliases: seq<string>, lower: bool)
    requires aliases != []
    ensures forall k :: 1 <= k < |aliases| ==> AliasPresent(columns, aliases, k, lower) == AliasPresent(columns, aliases[1..], k - 1, lower)
  {
    forall k | 1 <= k < |aliases|
      ensures AliasPresent(columns, aliases, k, lower) == AliasPresent(columns, aliases[1..], k - 1, lower)
    {
      assert aliases[k] == aliases[1..][k - 1];
    }
  }

  /** The first matching alias of the tail, after an unmatched head, is the first of the list. */
  lemma FirstAliasShift(columns: seq<string>, aliases: seq<string>, lower: bool, k: int)
    requires aliases != [] && !AliasPresent(columns, aliases, 0, lower)
    requires 0 <= k < |aliases| - 1 && AliasPresent(columns, aliases[1..], k, lower)
    requires forall k' :: 0 <= k' < k ==> !AliasPresent(columns, aliases[1..], k', lower)
    ensures aliases[1..][k] == aliases[k + 1] && AliasPresent(columns, aliases, k + 1, lower)
    ensures forall k' :: 0 <= k' < k + 1 ==> !AliasPresent(columns, aliases, k', lower)
  {
    AliasShift(columns, aliases, lower);
  }

  /** `FindCol` finds the earliest alias that matches, and returns the last column matching it. */
  lemma {:induction false} FindColSpec(columns: seq<string>, aliases: seq<string>)
    ensures FindCol(columns, aliases).None? <==> forall k :: 0 <= k < |aliases| ==> !AliasPresent(columns, aliases, k, true)
    ensures FindCol(columns, aliases).Some? ==>
      exists k :: 0 <= k < |aliases| && AliasPresent(columns, aliases, k, true)
        && (forall k' :: 0 <= k' < k ==> !AliasPresent(columns, aliases, k', true))
        && FindCol(columns, aliases) == LookupNorm(columns, Lower(aliases[k]))
  {
    if aliases != [] {
      FindColSpec(columns, aliases[1..]);
      var l := LookupNorm(columns, Lower(aliases[0]));
      if l.Some? {
        var j := LastIndexWithNorm(columns, Lower(aliases[0]));
        assert AliasPresent(columns, aliases, 0, true);
        assert FindCol(columns, aliases) == LookupNorm(columns, Lower(aliases[0]));
      } else {
        assert FindCol(columns, aliases) == FindCol(columns, aliases[1..]);
        LookupNormSpec(columns, Lower(aliases[0]));
        assert !AliasPresent(columns, aliases, 0, true);
        AliasShift(columns, aliases, true);
        if FindCol(columns, aliases).Some? {
          var k :| 0 <= k < |aliases[1..]| && AliasPresent(columns, aliases[1..], k, true)
            && (forall k' :: 0 <= k' < k ==> !AliasPresent(columns, aliases[1..], k', true))
            && FindCol(columns, aliases[1..]) == LookupNorm(columns, Lower(aliases[1..][k]));
          FirstAliasShift(columns, aliases, true, k);
        }
      }
    }
  }

  /** What `FindColumn` returns is one of the columns. */
  lemma {:induction false} FindColumnIn(columns: seq<string>, aliases: seq<string>)
    ensures FindColumn(columns, aliases).Some? ==> FindColumn(columns, aliases).value in columns
  {
    if aliases != [] && LookupNorm(columns, aliases[0]).None? {
      FindColumnIn(columns, aliases[1..]);
    }
  }

  /** `FindColumn` finds the earliest alias, as written, that some normalised column name equals,
   *  and returns the last column normalising to it. */
  lemma {:induction false} FindColumnSpec(columns: seq<string>, aliases: seq<string>)
    ensures FindColumn(columns, aliases).None? <==> forall k :: 0 <= k < |aliases| ==> !AliasPresent(columns, aliases, k, false)
    ensures FindColumn(columns, aliases).Some? ==>
      exists k :: 0 <= k < |aliases| && AliasPresent(columns, aliases, k, false)
        && (forall k' :: 0 <= k' < k ==> !AliasPresent(columns, aliases, k', false))
        && FindColumn(columns, aliases) == LookupNorm(columns, aliases[k])
  {
    if aliases != [] {
      FindColumnSpec(columns, aliases[1..]);
      var l := LookupNorm(columns, aliases[0]);
      if l.Some? {
        var j := LastIndexWithNorm(columns, aliases[0]);
        assert AliasPresent(columns, aliases, 0, false);
        assert FindColumn(columns, aliases) == LookupNorm(columns, aliases[0]);
      } else {
        assert FindColumn(columns, aliases) == FindColumn(columns, aliases[1..]);
        LookupNormSpec(columns, aliases[0]);
        assert !AliasPresent(columns, aliases, 0, false);
        AliasShift(columns, aliases, false);
        if FindColumn(columns, aliases).Some? {
          var k :| 0 <= k < |aliases[1..]| && AliasPresent(columns, aliases[1..], k, false)
            && (forall k' :: 0 <= k' < k ==> !AliasPresent(columns, aliases[1..], k', false))
            && FindColumn(columns, aliases[1..]) == LookupNorm(columns, aliases[1..][k]);
          FirstAliasShift(columns, aliases, false, k);
        }
      }
    }
  }

  /** The cleaner's matcher only finds aliases written in lower case and without surrounding
   *  blanks; where every alias is written so, it agrees with `FindCol`. */
  lemma {:induction false} FindColumnAgrees(columns: seq<string>, aliases: seq<string>)
    requires forall k :: 0 <= k < |aliases| ==> Lower(aliases[k]) == aliases[k]
    ensures FindColumn(columns, aliases) == FindCol(columns, aliases)
  {
    if aliases != [] {
      FindColumnAgrees(columns, aliases[1..]);
    }
  }

  /** When two columns normalise alike, the later one is the match. */
  lemma LaterColumnWins(columns: seq<string>, i: int, j: int, alias: string)
    requires 0 <= i < j < |columns|
    requires Norm(columns[i]) == Lower(alias) && Norm(columns[j]) == Lower(alias)
    requires forall k :: j < k < |columns| ==> Norm(columns[k]) != Lower(alias)
    ensures FindCol(columns, [alias]) == Some(columns[j])
  {
    var key := Lower(alias);
    var r := LastIndexWithNorm(columns, key);
    LastIndexWithNormSpec(columns, key);
    assert r == j;
    assert LookupNorm(columns, key) == Some(columns[j]);
    assert [alias][0] == alias;
  }

  // ---------------------------------------------------------------------------------------------
  // Columns as sequences

  function Column(rows: seq<Row>, col: string): (r: seq<Cell>)
    ensures |r| == |rows|
    ensures forall i :: 0 <= i < |rows| ==> r[i] == Get(rows[i], col)
  {
    seq(|rows|, i requires 0 <= i < |rows| => Get(rows[i], col))
  }

  /** The present numbers of a cell sequence (`dropna()` of a numeric column). */
  function Numbers(cells: seq<Cell>): (r: seq<real>)
    ensures |r| <= |cells|
    ensures |r| == CountWhere(cells, IsNum)
  {
    if cells == [] then []
    else Numbers(cells[..|cells| - 1]) + (if cells[|cells| - 1].Num? then [cells[|cells| - 1].n] else [])
  }

  predicate IsNum(c: Cell) { c.Num? }

  lemma {:induction false} NumbersAppend(a: seq<Cell>, b: seq<Cell>)
    ensures Numbers(a + b) == Numbers(a) + Numbers(b)
    decreases |b|
  {
    if b == [] {
      assert a + b == a;
    } else {
      assert (a + b)[..|a + b| - 1] == a + b[..|b| - 1];
      NumbersAppend(a, b[..|b| - 1]);
    }
  }

  lemma {:induction false} NumbersWithin(cells: seq<Cell>, lo: real, hi: real)
    requires forall i :: 0 <= i < |cells| ==> cells[i].Num? ==> lo <= cells[i].n <= hi
    ensures forall i :: 0 <= i < |Numbers(cells)| ==> lo <= Numbers(cells)[i] <= hi
  {
    if cells != [] {
      NumbersWithin(cells[..|cells| - 1], lo, hi);
    }
  }

  function QuoteCell(c: Cell): string { if c.Str? then "'" + c.s + "'" else CellString(c) }

  /** `str(list(values))`. */
  function ListRepr(values: seq<Cell>): string
  {
    "[" + Join(", ", seq(|values|, i requires 0 <= i < |values| => QuoteCell(values[i]))) + "]"
  }

  function StrCells(names: seq<string>): seq<Cell>
  {
    seq(|names|, i requires 0 <= i < |names| => Str(names[i]))
  }

  /** The cells of `row` under the key columns `cols`, in order. */
  function KeyOf(row: Row, cols: seq<string>): seq<Cell>
  {
    seq(|cols|, k requires 0 <= k < |cols| => Get(row, cols[k]))
  }

  function Keys(rows: seq<Row>, cols: seq<string>): (r: seq<seq<Cell>>)
    ensures |r| == |rows| && forall i :: 0 <= i < |rows| ==> r[i] == KeyOf(rows[i], cols)
  {
    seq(|rows|, i requires 0 <= i < |rows| => KeyOf(rows[i], cols))
  }

  /** The present numbers of one column. */
  function ColumnNumbers(rows: seq<Row>, col: string): seq<real>
  {
    Numbers(Column(rows, col))
  }

  /** The rows whose `col` cell equals `key` (`df[df[col] == key]`). */
  function RowsWhere(rows: seq<Row>, col: string, key: Cell): (r: seq<Row>)
    ensures |r| <= |rows|
  {
    if rows == [] then []
    else RowsWhere(rows[..|rows| - 1], col, key) + (if Get(rows[|rows| - 1], col) == key then [rows[|rows| - 1]] else [])
  }

  /** The selected rows are rows of the table whose `col` cell is `key`, and every such row is
   *  selected. */
  lemma {:induction false} RowsWhereSpec(rows: seq<Row>, col: string, key: Cell)
    ensures forall i :: 0 <= i < |RowsWhere(rows, col, key)| ==>
      RowsWhere(rows, col, key)[i] in rows && Get(RowsWhere(rows, col, key)[i], col) == key
    ensures forall i :: 0 <= i < |rows| && Get(rows[i], col) == key ==> rows[i] in RowsWhere(rows, col, key)
  {
    if rows != [] {
      var init := rows[..|rows| - 1];
      RowsWhereSpec(init, col, key);
      var last := if Get(rows[|rows| - 1], col) == key then [rows[|rows| - 1]] else [];
      var r := RowsWhere(rows, col, key);
      assert r == RowsWhere(init, col, key) + last;
      forall i | 0 <= i < |r| ensures r[i] in rows && Get(r[i], col) == key {
        if i < |RowsWhere(init, col, key)| {
          assert r[i] == RowsWhere(init, col, key)[i];
          assert r[i] in init;
        } else {
          assert r[i] == rows[|rows| - 1];
        }
      }
      forall i | 0 <= i < |rows| && Get(rows[i], col) == key ensures rows[i] in r {
        if i < |rows| - 1 {
          assert rows[i] == init[i];
        }
      }
    }
  }

  /** The present cells of a column, de-duplicated in first-appearance order (`dropna().unique()`). */
  function PresentUnique(rows: seq<Row>, col: string): (r: seq<Cell>)
    ensures NoDups(r)
    ensures forall c :: c in r <==> c != Missing && c in Column(rows, col)
  {
    Distinct(Filter(Column(rows, col), IsPresent))
  }

  predicate IsPresent(c: Cell) { !c.Missing? }

  // ---------------------------------------------------------------------------------------------
  // The order of `groupby` keys: numbers before text, numbers by value, text by code points.

  predicate StrLe(a: string, b: string)
  {
    if a == [] then true
    else if b == [] then false
    else if a[0] != b[0] then a[0] < b[0]
    else StrLe(a[1..], b[1..])
  }

  lemma {:induction false} StrLeTotal(a: string, b: string)
    ensures StrLe(a, b) || StrLe(b, a)
  {
    if a != [] && b != [] && a[0] == b[0] {
      StrLeTotal(a[1..], b[1..]);
    }
  }

  lemma {:induction false} StrLeTrans(a: string, b: string, c: string)
    requires StrLe(a, b) && StrLe(b, c)
    ensures StrLe(a, c)
  {
    if a != [] && b != [] && c != [] && a[0] == b[0] && b[0] == c[0] {
      StrLeTrans(a[1..], b[1..], c[1..]);
    }
  }

  lemma {:induction false} StrLeAntisym(a: string, b: string)
    requires StrLe(a, b) && StrLe(b, a)
    ensures a == b
  {
    if a != [] && b != [] {
      StrLeAntisym(a[1..], b[1..]);
    }
  }

  lemma StrLeTotalPreorder()
    ensures TotalPreorder(StrLe)
  {
    forall a, b ensures StrLe(a, b) || StrLe(b, a) { StrLeTotal(a, b); }
    forall a, b, c | StrLe(a, b) && StrLe(b, c) ensures StrLe(a, c) { StrLeTrans(a, b, c); }
  }

  predicate CellLe(a: Cell, b: Cell)
  {
    match (a, b)
    case (Missing, _) => true
    case (_, Missing) => false
    case (Bool(x), Bool(y)) => !x || y
    case (Bool(_), _) => true
    case (_, Bool(_)) => false
    case (Num(x), Num(y)) => x <= y
    case (Num(_), Str(_)) => true
    case (Str(_), Num(_)) => false
    case (Str(s), Str(t)) => StrLe(s, t)
  }

  lemma CellLeTotalPreorder()
    ensures TotalPreorder(CellLe)
  {
    forall a, b ensures CellLe(a, b) || CellLe(b, a) {
      if a.Str? && b.Str? { StrLeTotal(a.s, b.s); }
    }
    forall a, b, c | CellLe(a, b) && CellLe(b, c) ensures CellLe(a, c) {
      if a.Str? && b.Str? && c.Str? { StrLeTrans(a.s, b.s, c.s); }
    }
  }

  lemma CellLeAntisym(a: Cell, b: Cell)
    requires CellLe(a, b) && CellLe(b, a)
    ensures a == b
  {
    if a.Str? && b.Str? { StrLeAntisym(a.s, b.s); }
  }

  /** `groupby(col)` keys: the present values, each once, in ascending order. */
  function GroupKeys(rows: seq<Row>, col: string): (r: seq<Cell>)
    ensures forall c :: c in r <==> c != Missing && c in Column(rows, col)
    ensures SortedBy(r, CellLe)
    ensures NoDups(r)
  {
    var u := PresentUnique(rows, col);
    var r := SortBy(u, CellLe);
    SortByPerm(u, CellLe);
    CellLeTotalPreorder();
    SortBySorted(u, CellLe);
    assert forall c :: c in r <==> c in multiset(r);
    assert forall c :: c in u <==> c in multiset(u);
    SortedNoDups(u, r);
    r
  }

  lemma SortedNoDups(u: seq<Cell>, r: seq<Cell>)
    requires NoDups(u) && multiset(r) == multiset(u) && SortedBy(r, CellLe)
    ensures NoDups(r)
  {
    var m := multiset(u);
    forall x | x in m ensures m[x] == 1 {
      var i := IndexOf(u, x);
      DistinctCount(u, x);
    }
    forall i, j | 0 <= i < j < |r| ensures r[i] != r[j] {
      if r[i] == r[j] {
        MultisetTwo(r, i, j);
        assert false;
      }
    }
  }

  lemma {:induction false} DistinctCount(u: seq<Cell>, x: Cell)
    requires NoDups(u) && x in u
    ensures multiset(u)[x] == 1
  {
    if u[|u| - 1] == x {
      var p := u[..|u| - 1];
      assert u == p + [x];
      assert x !in p;
    } else {
      var p := u[..|u| - 1];
      assert u == p + [u[|u| - 1]];
      assert NoDups(p);
      DistinctCount(p, x);
    }
  }

  lemma MultisetTwo(r: seq<Cell>, i: int, j: int)
    requires 0 <= i < j < |r| && r[i] == r[j]
    ensures multiset(r)[r[i]] >= 2
  {
    var x := r[i];
    assert r == r[..j] + [x] + r[j + 1..];
    assert r[..j] == r[..i] + [x] + r[i + 1..j];
    assert multiset(r)[x] == multiset(r[..i])[x] + 1 + multiset(r[i + 1..j])[x] + 1 + multiset(r[j + 1..])[x];
  }

  // ---------------------------------------------------------------------------------------------
  // The percentage column

  /** The percentage of one row after `_ensure_percentage`, from its score cell and its max cell. */
  function DerivedPct(score: Cell, max: Option<Cell>): Option<real>
  {
    var s := ToNumeric(score);
    match max
    case None => s
    case Some(mc) =>
      var m := ToNumeric(mc);
      if m.Some? && m.value > 0.0 then
        (if s.Some? then Some(Round(s.value / m.value * 100.0, 2)) else None)
      else s
  }

  function OptCol(c: Option<string>): seq<string>
  {
    if c.Some? then [c.value] else []
  }

  /** `_ensure_percentage` of the analytics engines: an existing "percentage" column is coerced to
   *  numbers; otherwise, when a score column is found, it is derived from score and max score. */
  function EnsurePercentage(f: Frame, scoreAliases: seq<string>, maxAliases: seq<string>): (r: Frame)
    ensures |r.rows| == |f.rows|
  {
    if "percentage" in f.columns then
      Frame(f.columns, seq(|f.rows|, i requires 0 <= i < |f.rows| =>
        f.rows[i]["percentage" := CellOf(ToNumeric(Get(f.rows[i], "percentage")))]))
    else
      match FindCol(f.columns, scoreAliases)
      case None => f
      case Some(sc) =>
        var mc := FindCol(f.columns, maxAliases);
        Frame(f.columns + ["score_num"] + (if mc.Some? then ["max_num"] else []) + ["percentage"],
          seq(|f.rows|, i requires 0 <= i < |f.rows| =>
            var row := f.rows[i];
            var withMax := if mc.Some? then row["score_num" := CellOf(ToNumeric(Get(row, sc)))]["max_num" := CellOf(ToNumeric(Get(row, mc.value)))]
                           else row["score_num" := CellOf(ToNumeric(Get(row, sc)))];
            withMax["percentage" := CellOf(DerivedPct(Get(row, sc), if mc.Some? then Some(Get(row, mc.value)) else None))]))
  }

  /** The percentage of a row after `EnsurePercentage`. */
  function Pct(row: Row): Option<real>
  {
    NumOf(Get(row, "percentage"))
  }

  /** What `EnsurePercentage` promises of every row: the percentage column holds the coerced
   *  existing value, or the derived one, and is absent only when no score column is found. */
  lemma EnsurePercentageSpec(f: Frame, scoreAliases: seq<string>, maxAliases: seq<string>, i: int)
    requires 0 <= i < |f.rows|
    ensures var r := EnsurePercentage(f, scoreAliases, maxAliases);
      var sc := FindCol(f.columns, scoreAliases);
      var mc := FindCol(f.columns, maxAliases);
      && ("percentage" in f.columns ==> Pct(r.rows[i]) == ToNumeric(Get(f.rows[i], "percentage")))
      && ("percentage" !in f.columns && sc.Some? ==>
            Pct(r.rows[i]) == DerivedPct(Get(f.rows[i], sc.value), if mc.Some? then Some(Get(f.rows[i], mc.value)) else None))
      && ("percentage" !in f.columns && sc.None? ==> r == f)
  {
  }

  /** The percentage values present in a table. */
  function Pcts(rows: seq<Row>): seq<real>
  {
    ColumnNumbers(rows, "percentage")
  }

  lemma PctsAppend(a: seq<Row>, b: seq<Row>)
    ensures Pcts(a + b) == Pcts(a) + Pcts(b)
  {
    assert Column(a + b, "percentage") == Column(a, "percentage") + Column(b, "percentage");
    NumbersAppend(Column(a, "percentage"), Column(b, "percentage"));
  }
}
