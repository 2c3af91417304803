/**
 * The part of Go's `strings` and `strconv` packages that the collectors use:
 * Index/Contains/HasPrefix, Split on a separator, TrimSpace, ToLower,
 * decimal ParseFloat and the `%d` rendering of an integer.
 */
module Text {
  import opened Wrappers

  // ---------------------------------------------------------------------
  // Searching
  // ---------------------------------------------------------------------

  /** `t` occurs in `s` starting at position `i`. */
  predicate OccursAt(s: string, t: string, i: nat) {
    i + |t| <= |s| && s[i..i + |t|] == t
  }

  /** The first position at or after `i` where `t` occurs in `s`. */
  function IndexFrom(s: string, t: string, i: nat): (r: Option<nat>)
    requires i <= |s|
    ensures r.Some? ==> i <= r.value && r.value + |t| <= |s|
    decreases |s| - i
  {
    if OccursAt(s, t, i) then Some(i)
    else if i == |s| then None
    else IndexFrom(s, t, i + 1)
  }

  /** IndexFrom finds the first occurrence at or after `i`; None means there is none. */
  lemma {:induction false} IndexFromSpec(s: string, t: string, i: nat)
    requires i <= |s|
    ensures IndexFrom(s, t, i).Some? ==> OccursAt(s, t, IndexFrom(s, t, i).value)
    ensures IndexFrom(s, t, i).Some? ==> forall j :: i <= j < IndexFrom(s, t, i).value ==> !OccursAt(s, t, j)
    ensures IndexFrom(s, t, i).None? ==> forall j :: i <= j <= |s| ==> !OccursAt(s, t, j)
    decreases |s| - i
  {
    if !OccursAt(s, t, i) && i < |s| {
      IndexFromSpec(s, t, i + 1);
    }
  }

  /** strings.Index: the first occurrence of `t` in `s`, if any. */
  function Index(s: string, t: string): (r: Option<nat>)
    ensures r.Some? ==> r.value + |t| <= |s|
  {
    IndexFrom(s, t, 0)
  }

  /** Index finds the first occurrence of `t`, and None exactly when there is none. */
  lemma IndexSpec(s: string, t: string)
    ensures Index(s, t).Some? ==> OccursAt(s, t, Index(s, t).value)
    ensures Index(s, t).Some? ==> forall j :: 0 <= j < Index(s, t).value ==> !OccursAt(s, t, j)
    ensures Index(s, t).None? <==> forall j :: 0 <= j <= |s| ==> !OccursAt(s, t, j)
  {
    IndexFromSpec(s, t, 0);
  }

  /** An occurrence with none before it is what Index finds. */
  lemma IndexFirst(s: string, t: string, i: nat)
    requires OccursAt(s, t, i)
    requires forall j :: 0 <= j < i ==> !OccursAt(s, t, j)
    ensures Index(s, t) == Some(i)
  {
    IndexSpec(s, t);
    assert i <= |s|;
  }

  /** A one-character pattern that is not among the characters of `s` does not occur in it. */
  lemma NotInString(s: string, c: char)
    requires forall i :: 0 <= i < |s| ==> s[i] != c
    ensures Index(s, [c]).None?
  {
    forall j | 0 <= j <= |s|
      ensures !OccursAt(s, [c], j)
    {
      if j < |s| {
        assert s[j..j + 1] == [s[j]];
      }
    }
    IndexSpec(s, [c]);
  }

  /** strings.Contains. */
  predicate Contains(s: string, t: string)
    ensures Contains(s, t) ==> |t| <= |s|
  {
    Index(s, t).Some?
  }

  /** strings.HasPrefix; a prefix is in particular contained. */
  predicate HasPrefix(s: string, p: string)
    ensures HasPrefix(s, p) ==> Contains(s, p)
  {
    IndexSpec(s, p);
    assert |p| <= |s| && s[..|p|] == p ==> OccursAt(s, p, 0);
    |p| <= |s| && s[..|p|] == p
  }

  // ---------------------------------------------------------------------
  // Split and Join
  // ---------------------------------------------------------------------

  /** strings.Join. */
  function Join(parts: seq<string>, sep: string): string {
    if |parts| == 0 then ""
    else if |parts| == 1 then parts[0]
    else parts[0] + sep + Join(parts[1..], sep)
  }

  /**
   * strings.Split with a non-empty separator: the pieces between successive
   * non-overlapping occurrences of `sep`, found left to right.
   */
  function Split(s: string, sep: string): (parts: seq<string>)
    requires sep != []
    ensures |parts| >= 1
    ensures |parts| == 1 <==> !Contains(s, sep)
    ensures |parts| == 1 ==> parts[0] == s
    decreases |s|
  {
    match Index(s, sep)
    case None => [s]
    case Some(i) => [s[..i]] + Split(s[i + |sep|..], sep)
  }

  /** A string cut around an occurrence of `t` at `i`. */
  lemma CutAt(s: string, t: string, i: nat)
    requires OccursAt(s, t, i)
    ensures s == s[..i] + t + s[i + |t|..]
  {
    assert s[i..] == t + s[i + |t|..];
    assert s == s[..i] + s[i..];
  }

  /** Joining a first piece to at least one more puts the separator between. */
  lemma JoinCons(p: string, rest: seq<string>, sep: string)
    requires rest != []
    ensures Join([p] + rest, sep) == p + sep + Join(rest, sep)
  {
    assert ([p] + rest)[1..] == rest;
  }

  /** Joining the pieces with the separator gives back the string. */
  lemma {:induction false} JoinSplit(s: string, sep: string)
    requires sep != []
    ensures Join(Split(s, sep), sep) == s
    decreases |s|
  {
    var k := Index(s, sep);
    if k.Some? {
      var i := k.value;
      IndexSpec(s, sep);
      var tail := s[i + |sep|..];
      JoinSplit(tail, sep);
      JoinCons(s[..i], Split(tail, sep), sep);
      CutAt(s, sep, i);
    }
  }

  /** No piece contains the separator. */
  lemma {:induction false} SplitPiecesFree(s: string, sep: string)
    requires sep != []
    ensures forall k :: 0 <= k < |Split(s, sep)| ==> !Contains(Split(s, sep)[k], sep)
    decreases |s|
  {
    IndexSpec(s, sep);
    match Index(s, sep)
    case None =>
    case Some(i) =>
      SplitPiecesFree(s[i + |sep|..], sep);
      forall j | 0 <= j <= i
        ensures !OccursAt(s[..i], sep, j)
      {
        if j + |sep| <= i {
          assert s[..i][j..j + |sep|] == s[j..j + |sep|];
          assert !OccursAt(s, sep, j);
        }
      }
      IndexSpec(s[..i], sep);
  }

  /** No proper suffix of `sep` is also a prefix of it (", " and "\n" are such). */
  predicate Unbordered(sep: string) {
    forall k :: 0 < k < |sep| ==> sep[k..] != sep[..|sep| - k]
  }

  /** In `a + sep + b`, with `a` free of `sep`, the first `sep` is the one after `a`. */
  lemma IndexAfterField(a: string, sep: string, b: string)
    requires sep != [] && Unbordered(sep) && !Contains(a, sep)
    ensures Index(a + sep + b, sep) == Some(|a|)
  {
    var s := a + sep + b;
    IndexSpec(a, sep);
    IndexSpec(s, sep);
    assert s[|a|..|a| + |sep|] == sep;
    assert OccursAt(s, sep, |a|);
    forall j | 0 <= j < |a|
      ensures !OccursAt(s, sep, j)
    {
      if j + |sep| <= |a| {
        assert a[j..j + |sep|] == s[j..j + |sep|];
        assert !OccursAt(a, sep, j);
      } else {
        var k := |a| - j;
        assert sep[k..] != sep[..|sep| - k];
        if j + |sep| <= |s| {
          assert s[j..j + |sep|][k..] == s[|a|..j + |sep|] == sep[..|sep| - k];
        }
      }
    }
  }

  /** Splitting the join of separator-free fields gives back the fields. */
  lemma {:induction false} SplitJoin(fields: seq<string>, sep: string)
    requires sep != [] && Unbordered(sep) && |fields| >= 1
    requires forall k :: 0 <= k < |fields| ==> !Contains(fields[k], sep)
    ensures Split(Join(fields, sep), sep) == fields
  {
    if |fields| == 1 {
    } else {
      var rest := Join(fields[1..], sep);
      IndexAfterField(fields[0], sep, rest);
      var s := fields[0] + sep + rest;
      assert s[..|fields[0]|] == fields[0];
      assert s[|fields[0]| + |sep|..] == rest;
      SplitJoin(fields[1..], sep);
      assert fields == [fields[0]] + fields[1..];
    }
  }

  // ---------------------------------------------------------------------
  // Whitespace and case
  // ---------------------------------------------------------------------

  /** unicode.IsSpace, the class strings.TrimSpace removes. */
  predicate IsSpace(c: char) {
    var k := c as int;
    (9 <= k <= 13) || k == 32 || k == 0x85 || k == 0xA0 || k == 0x1680
    || (0x2000 <= k <= 0x200A) || k == 0x2028 || k == 0x2029 || k == 0x202F
    || k == 0x205F || k == 0x3000
  }

  function TrimLeft(s: string): string
    ensures |TrimLeft(s)| <= |s|
  {
    if |s| > 0 && IsSpace(s[0]) then TrimLeft(s[1..]) else s
  }

  function TrimRight(s: string): string
    ensures |TrimRight(s)| <= |s|
  {
    if |s| > 0 && IsSpace(s[|s| - 1]) then TrimRight(s[..|s| - 1]) else s
  }

  /** strings.TrimSpace: drop leading and trailing white space. */
  function TrimSpace(s: string): (r: string)
    ensures |r| <= |s|
  {
    TrimRight(TrimLeft(s))
  }

  /** TrimLeft drops a leading run of white space and stops at the first other character. */
  lemma {:induction false} TrimLeftSpec(s: string)
    ensures |TrimLeft(s)| <= |s| && TrimLeft(s) == s[|s| - |TrimLeft(s)|..]
    ensures TrimLeft(s) != [] ==> !IsSpace(TrimLeft(s)[0])
    ensures forall i :: 0 <= i < |s| - |TrimLeft(s)| ==> IsSpace(s[i])
  {
    if |s| > 0 && IsSpace(s[0]) {
      TrimLeftSpec(s[1..]);
    }
  }

  /** TrimRight drops a trailing run of white space and stops at the last other character. */
  lemma {:induction false} TrimRightSpec(s: string)
    ensures |TrimRight(s)| <= |s| && TrimRight(s) == s[..|TrimRight(s)|]
    ensures TrimRight(s) != [] ==> !IsSpace(TrimRight(s)[|TrimRight(s)| - 1])
    ensures forall i :: |TrimRight(s)| <= i < |s| ==> IsSpace(s[i])
  {
    if |s| > 0 && IsSpace(s[|s| - 1]) {
      TrimRightSpec(s[..|s| - 1]);
    }
  }

  /**
   * strings.TrimSpace keeps the middle of `s`: the result is a slice of `s`
   * that neither starts nor ends with white space, and everything cut off
   * on either side is white space.
   */
  lemma TrimSpaceSpec(s: string)
    ensures exists lo: nat, hi: nat :: lo <= hi <= |s| && TrimSpace(s) == s[lo..hi] &&
              (forall i :: 0 <= i < lo ==> IsSpace(s[i])) && (forall i :: hi <= i < |s| ==> IsSpace(s[i]))
    ensures TrimSpace(s) != [] ==> !IsSpace(TrimSpace(s)[0]) && !IsSpace(TrimSpace(s)[|TrimSpace(s)| - 1])
  {
    var l := TrimLeft(s);
    TrimLeftSpec(s);
    TrimRightSpec(l);
    var lo: nat := |s| - |l|;
    var hi: nat := lo + |TrimRight(l)|;
    assert TrimSpace(s) == s[lo..hi];
    assert forall i :: hi <= i < |s| ==> s[i] == l[i - lo];
    if TrimSpace(s) != [] {
      assert TrimSpace(s)[0] == l[0];
    }
  }

  /** A string that neither starts nor ends with white space is its own trim. */
  lemma TrimSpaceNoop(s: string)
    requires s != [] ==> !IsSpace(s[0]) && !IsSpace(s[|s| - 1])
    ensures TrimSpace(s) == s
  {
    assert TrimLeft(s) == s;
  }

  /** A string of white space trims to nothing from the left. */
  lemma {:induction false} TrimLeftAllSpace(ws: string)
    requires forall i :: 0 <= i < |ws| ==> IsSpace(ws[i])
    ensures TrimLeft(ws) == []
  {
    if ws != [] {
      TrimLeftAllSpace(ws[1..]);
    }
  }

  /** Trailing white space is dropped by the trim. */
  lemma TrimSpaceTrailing(s: string, ws: string)
    requires s != [] ==> !IsSpace(s[0]) && !IsSpace(s[|s| - 1])
    requires forall i :: 0 <= i < |ws| ==> IsSpace(ws[i])
    ensures TrimSpace(s + ws) == s
  {
    if s == [] {
      assert s + ws == ws;
      TrimLeftAllSpace(ws);
    } else {
      assert TrimLeft(s + ws) == s + ws;
      TrimRightSpaces(s, ws);
    }
  }

  lemma {:induction false} TrimRightSpaces(s: string, ws: string)
    requires s != [] && !IsSpace(s[|s| - 1])
    requires forall i :: 0 <= i < |ws| ==> IsSpace(ws[i])
    ensures TrimRight(s + ws) == s
    decreases |ws|
  {
    if ws == [] {
      assert s + ws == s;
    } else {
      var t := s + ws;
      assert t[..|t| - 1] == s + ws[..|ws| - 1];
      TrimRightSpaces(s, ws[..|ws| - 1]);
    }
  }

  /** unicode.ToLower on the ASCII letters. */
  function LowerChar(c: char): char {
    if 'A' <= c <= 'Z' then (c as int + 32) as char else c
  }

  /** strings.ToLower, letter by letter. */
  function ToLower(s: string): (r: string)
    ensures |r| == |s|
    ensures forall i :: 0 <= i < |s| ==> r[i] == LowerChar(s[i])
  {
    if s == [] then [] else [LowerChar(s[0])] + ToLower(s[1..])
  }

  // ---------------------------------------------------------------------
  // Decimal numbers
  // ---------------------------------------------------------------------

  predicate IsDigit(c: char) {
    '0' <= c <= '9'
  }

  predicate AllDigits(s: string) {
    forall i :: 0 <= i < |s| ==> IsDigit(s[i])
  }

  function DigitValue(c: char): nat
    requires IsDigit(c)
  {
    c as int - '0' as int
  }

  function DigitChar(d: nat): (c: char)
    requires d < 10
    ensures IsDigit(c) && DigitValue(c) == d
  {
    ('0' as int + d) as char
  }

  /** The value of a string of decimal digits, most significant first. */
  function DigitsValue(s: string): nat
    requires AllDigits(s)
  {
    if s == [] then 0 else DigitsValue(s[..|s| - 1]) * 10 + DigitValue(s[|s| - 1])
  }

  function Pow10(n: nat): (r: nat)
    ensures r >= 1
  {
    if n == 0 then 1 else 10 * Pow10(n - 1)
  }

  /**
   * The unsigned decimals strconv.ParseFloat accepts without exponent:
   * digits, optionally a point and more digits, at least one digit overall.
   */
  function ParseUnsignedDecimal(s: string): (r: Option<real>)
    ensures r.Some? ==> r.value >= 0.0
  {
    match Index(s, ".")
    case None =>
      if s != [] && AllDigits(s) then Some(DigitsValue(s) as real) else None
    case Some(i) =>
      var whole, frac := s[..i], s[i + 1..];
      if (whole != [] || frac != []) && AllDigits(whole) && AllDigits(frac)
      then Some(DecimalValue(whole, frac))
      else None
  }

  /** strconv.ParseFloat restricted to signed plain decimals; None is its error. */
  function ParseFloat(s: string): (r: Option<real>)
    ensures s == [] ==> r.None?
  {
    if s != [] && (s[0] == '+' || s[0] == '-') then
      match ParseUnsignedDecimal(s[1..])
      case None => None
      case Some(m) => Some(if s[0] == '-' then -m else m)
    else ParseUnsignedDecimal(s)
  }

  /** The number a decimal numeral with these whole and fraction digits denotes. */
  function DecimalValue(whole: string, frac: string): (v: real)
    requires AllDigits(whole) && AllDigits(frac)
    ensures v >= DigitsValue(whole) as real
  {
    var scale := Pow10(|frac|) as real;
    assert scale >= 1.0;
    var fraction := DigitsValue(frac) as real / scale;
    assert fraction >= 0.0;
    DigitsValue(whole) as real + fraction
  }

  /** Digits, a point and digits, with at least one digit, are read as their decimal value. */
  lemma UnsignedDecimalPoint(whole: string, frac: string)
    requires AllDigits(whole) && AllDigits(frac) && (whole != [] || frac != [])
    ensures ParseUnsignedDecimal(whole + "." + frac) == Some(DecimalValue(whole, frac))
  {
    var u := whole + "." + frac;
    assert OccursAt(u, ".", |whole|) by { assert u[|whole|..|whole| + 1] == "."; }
    forall j | 0 <= j < |whole|
      ensures !OccursAt(u, ".", j)
    {
      assert u[j] == whole[j];
      assert IsDigit(u[j]);
    }
    IndexFirst(u, ".", |whole|);
    assert u[..|whole|] == whole && u[|whole| + 1..] == frac;
  }

  /** A leading sign is split off before the unsigned parse, and a minus negates its value. */
  lemma ParseFloatSign(sign: string, u: string)
    requires sign == "" || sign == "+" || sign == "-"
    requires u != [] && (u[0] == '.' || IsDigit(u[0])) && ParseUnsignedDecimal(u).Some?
    ensures ParseFloat(sign + u)
         == Some(if sign == "-" then -ParseUnsignedDecimal(u).value else ParseUnsignedDecimal(u).value)
  {
    if sign == "" {
      assert sign + u == u;
    } else {
      assert (sign + u)[0] == sign[0];
      assert (sign + u)[1..] == u;
    }
  }

  /**
   * Every plain decimal [+-]? digits . digits with at least one digit parses
   * to its value, negated after a minus sign.
   */
  lemma ParseFloatDecimal(sign: string, whole: string, frac: string)
    requires sign == "" || sign == "+" || sign == "-"
    requires AllDigits(whole) && AllDigits(frac) && (whole != [] || frac != [])
    ensures ParseFloat(sign + whole + "." + frac)
         == Some(if sign == "-" then -DecimalValue(whole, frac) else DecimalValue(whole, frac))
  {
    var u := whole + "." + frac;
    UnsignedDecimalPoint(whole, frac);
    assert u[0] == '.' || IsDigit(u[0]);
    ParseFloatSign(sign, u);
    assert sign + whole + "." + frac == sign + u;
  }

  /** Every plain integer [+-]? digits parses to the value of its digits, negated after a minus sign. */
  lemma ParseFloatInteger(sign: string, digits: string)
    requires sign == "" || sign == "+" || sign == "-"
    requires AllDigits(digits) && digits != []
    ensures ParseFloat(sign + digits)
         == Some(if sign == "-" then -(DigitsValue(digits) as real) else DigitsValue(digits) as real)
  {
    NotInString(digits, '.');
    assert ParseUnsignedDecimal(digits) == Some(DigitsValue(digits) as real);
    ParseFloatSign(sign, digits);
  }

  /** A character that is not a digit or a point, and not a leading sign, makes the unsigned parse fail. */
  lemma UnsignedDecimalRejects(s: string, k: nat)
    requires k < |s| && !IsDigit(s[k]) && s[k] != '.'
    ensures ParseUnsignedDecimal(s).None?
  {
    IndexSpec(s, ".");
    match Index(s, ".")
    case None =>
      assert !AllDigits(s);
    case Some(i) =>
      assert s[i..i + 1] == "." && s[i] == '.';
      if k < i {
        assert s[..i][k] == s[k];
      } else {
        assert s[i + 1..][k - i - 1] == s[k];
      }
  }

  /** The model's ParseFloat rejects any character outside digits, one point and a leading sign. */
  lemma ParseFloatRejects(s: string, k: nat)
    requires k < |s| && !IsDigit(s[k]) && s[k] != '.'
    requires k == 0 ==> s[k] != '+' && s[k] != '-'
    ensures ParseFloat(s).None?
  {
    if s[0] == '+' || s[0] == '-' {
      assert s[1..][k - 1] == s[k];
      UnsignedDecimalRejects(s[1..], k - 1);
    } else {
      UnsignedDecimalRejects(s, k);
    }
  }

  /** Two points make the unsigned parse fail: the fraction after the first holds the second. */
  lemma UnsignedDecimalTwoPoints(s: string, i: nat, j: nat)
    requires i < j < |s| && s[i] == '.' && s[j] == '.'
    ensures ParseUnsignedDecimal(s).None?
  {
    assert OccursAt(s, ".", i) by { assert s[i..i + 1] == "."; }
    IndexSpec(s, ".");
    var k := Index(s, ".").value;
    assert k <= i;
    assert s[k + 1..][j - k - 1] == s[j];
  }

  /** strconv.ParseFloat rejects a number with two points, such as "1.2.3". */
  lemma ParseFloatTwoPoints(s: string, i: nat, j: nat)
    requires i < j < |s| && s[i] == '.' && s[j] == '.'
    ensures ParseFloat(s).None?
  {
    if s[0] == '+' || s[0] == '-' {
      assert s[1..][i - 1] == s[i] && s[1..][j - 1] == s[j];
      UnsignedDecimalTwoPoints(s[1..], i - 1, j - 1);
    } else {
      UnsignedDecimalTwoPoints(s, i, j);
    }
  }

  /** A lone point or a lone sign has no digit and does not parse. */
  lemma ParseFloatNoDigits(s: string)
    requires s == "." || s == "+" || s == "-"
    ensures ParseFloat(s).None?
  {
    if s == "." {
      assert OccursAt(s, ".", 0);
      IndexFirst(s, ".", 0);
      assert s[..0] == [] && s[1..] == [];
    } else {
      assert s[1..] == [];
      IndexSpec([], ".");
    }
  }

  /** The `%d` rendering of a natural number. */
  function NatToString(n: nat): (r: string)
    ensures r != [] && AllDigits(r)
    ensures |r| > 1 ==> r[0] != '0'
  {
    if n < 10 then [DigitChar(n)] else NatToString(n / 10) + [DigitChar(n % 10)]
  }

  /** Reading back a rendered natural gives the number. */
  lemma {:induction false} DigitsValueOfNatToString(n: nat)
    ensures DigitsValue(NatToString(n)) == n
  {
    var s := NatToString(n);
    if n >= 10 {
      DigitsValueOfNatToString(n / 10);
      assert s[..|s| - 1] == NatToString(n / 10);
    }
  }

  /** A string of digits has no "." occurrence. */
  lemma NoPoint(s: string)
    requires AllDigits(s)
    ensures Index(s, ".").None?
  {
    NotInString(s, '.');
  }

  /** ParseFloat reads the `%d` rendering of a natural back as that number, an exact real. */
  lemma ParseFloatNatToString(n: nat)
    ensures ParseFloat(NatToString(n)) == Some(n as real)
  {
    var s := NatToString(n);
    NoPoint(s);
    DigitsValueOfNatToString(n);
    assert IsDigit(s[0]);
  }

  /** Different naturals render differently. */
  lemma NatToStringInjective(m: nat, n: nat)
    requires NatToString(m) == NatToString(n)
    ensures m == n
  {
    DigitsValueOfNatToString(m);
    DigitsValueOfNatToString(n);
  }
}
