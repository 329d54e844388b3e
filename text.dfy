/**
 * The string plumbing the chart parameters are made of: ASCII upper-casing,
 * decimal rendering of integers (Python's `str(n)`), `sep.join(xs)`, and the
 * inverse operations a reader of the parameters uses (`split`, `int`).
 */
module Text {
  import opened Wrappers

  predicate IsLower(c: char) {
    'a' <= c <= 'z'
  }

  predicate IsDigit(c: char) {
    '0' <= c <= '9'
  }

  /** Python 2 `str.upper()` on one character (ASCII letters only). */
  function UpperChar(c: char): (r: char)
    ensures !IsLower(r)
    ensures IsLower(c) ==> r as int == c as int - 32
    ensures IsLower(c) || r == c
    ensures IsDigit(c) ==> r == c
  {
    if IsLower(c) then (c as int - 32) as char else c
  }

  /** Python 2 `s.upper()`. */
  function Upper(s: string): (r: string)
    ensures |r| == |s|
    ensures forall i :: 0 <= i < |s| ==> r[i] == UpperChar(s[i])
  {
    if s == [] then [] else [UpperChar(s[0])] + Upper(s[1..])
  }

  /** Upper-casing a string with no lower-case letter changes nothing. */
  lemma {:induction false} UpperFixed(s: string)
    requires forall i :: 0 <= i < |s| ==> !IsLower(s[i])
    ensures Upper(s) == s
  {
    if s != [] {
      UpperFixed(s[1..]);
    }
  }

  function DigitChar(d: int): (c: char)
    requires 0 <= d < 10
    ensures IsDigit(c) && c as int - '0' as int == d
  {
    ('0' as int + d) as char
  }

  /** Decimal digits of a natural number, most significant first, no leading zeros. */
  function NatToString(n: nat): (r: string)
    ensures |r| > 0
    ensures forall i :: 0 <= i < |r| ==> IsDigit(r[i])
    ensures r[0] == '0' <==> n == 0
    ensures r[0] == '0' ==> |r| == 1
    decreases n
  {
    if n < 10 then [DigitChar(n)] else NatToString(n / 10) + [DigitChar(n % 10)]
  }

  /** Python's `str(n)` (and `'%s' % n`) for an integer. */
  function IntToString(n: int): (r: string)
    ensures |r| > 0
    ensures forall i :: 0 <= i < |r| ==> IsDigit(r[i]) || (i == 0 && r[i] == '-')
    ensures r[0] == '-' <==> n < 0
    ensures r[0] == '0' ==> r == "0"
    ensures n < 0 ==> |r| > 1 && r[1] != '0'
  {
    if n < 0 then "-" + NatToString(-n) else NatToString(n)
  }

  predicate AllDigits(s: string) {
    forall i :: 0 <= i < |s| ==> IsDigit(s[i])
  }

  function DigitsValue(s: string): nat
    requires AllDigits(s)
  {
    if s == [] then 0 else DigitsValue(s[..|s| - 1]) * 10 + (s[|s| - 1] as int - '0' as int)
  }

  /** Reads a decimal integer back: an optional '-' and at least one digit. */
  function ParseInt(s: string): Option<int> {
    if |s| > 1 && s[0] == '-' && AllDigits(s[1..]) then Some(-(DigitsValue(s[1..]) as int))
    else if |s| > 0 && AllDigits(s) then Some(DigitsValue(s))
    else None
  }

  lemma {:induction false} NatToStringValue(n: nat)
    ensures DigitsValue(NatToString(n)) == n
    decreases n
  {
    if n >= 10 {
      var s := NatToString(n);
      NatToStringValue(n / 10);
      assert s[..|s| - 1] == NatToString(n / 10);
    }
  }

  /** Reading back `str(n)` gives `n`. */
  lemma IntToStringRoundTrip(n: int)
    ensures ParseInt(IntToString(n)) == Some(n)
  {
    if n < 0 {
      assert IntToString(n)[1..] == NatToString(-n);
      NatToStringValue(-n);
    } else {
      NatToStringValue(n);
    }
  }

  function ParseInts(ss: seq<string>): Option<seq<int>> {
    if ss == [] then Some([])
    else match (ParseInt(ss[0]), ParseInts(ss[1..]))
      case (Some(x), Some(xs)) => Some([x] + xs)
      case _ => None
  }

  /** `[str(x) for x in xs]`. */
  function Strings(xs: seq<int>): (r: seq<string>)
    ensures |r| == |xs|
    ensures forall i :: 0 <= i < |xs| ==> r[i] == IntToString(xs[i])
  {
    if xs == [] then [] else [IntToString(xs[0])] + Strings(xs[1..])
  }

  lemma {:induction false} StringsRoundTrip(xs: seq<int>)
    ensures ParseInts(Strings(xs)) == Some(xs)
  {
    if xs != [] {
      var ss := Strings(xs);
      IntToStringRoundTrip(xs[0]);
      StringsRoundTrip(xs[1..]);
      assert ss[1..] == Strings(xs[1..]);
      assert ParseInt(ss[0]) == Some(xs[0]);
      assert [xs[0]] + xs[1..] == xs;
    }
  }

  /** Python's `sep.join(xs)` for a one-character separator. */
  function Join(xs: seq<string>, sep: char): string {
    if |xs| == 0 then ""
    else if |xs| == 1 then xs[0]
    else xs[0] + [sep] + Join(xs[1..], sep)
  }

  /** Python's `s.split(sep)` for a one-character separator: always at least one piece. */
  function Split(s: string, sep: char): (r: seq<string>)
    ensures |r| > 0
  {
    if s == [] then [""]
    else if s[0] == sep then [""] + Split(s[1..], sep)
    else
      var rest := Split(s[1..], sep);
      [[s[0]] + rest[0]] + rest[1..]
  }

  lemma {:induction false} SplitPiece(x: string, sep: char, tail: string)
    requires sep !in x
    ensures Split(x + tail, sep) == [x + Split(tail, sep)[0]] + Split(tail, sep)[1..]
  {
    var t := Split(tail, sep);
    if x != [] {
      var s := x + tail;
      assert s[1..] == x[1..] + tail && s[0] == x[0] != sep;
      SplitPiece(x[1..], sep, tail);
      var rest := Split(s[1..], sep);
      assert rest[0] == x[1..] + t[0] && rest[1..] == t[1..];
      assert Split(s, sep) == [[x[0]] + rest[0]] + rest[1..];
      assert [x[0]] + (x[1..] + t[0]) == x + t[0];
    } else {
      assert x + tail == tail;
      assert x + t[0] == t[0];
      assert [t[0]] + t[1..] == t;
    }
  }

  /** Splitting a join gives the pieces back, when no piece holds the separator. */
  lemma {:induction false} SplitJoin(xs: seq<string>, sep: char)
    requires |xs| > 0
    requires forall i :: 0 <= i < |xs| ==> sep !in xs[i]
    ensures Split(Join(xs, sep), sep) == xs
  {
    if |xs| == 1 {
      SplitPiece(xs[0], sep, "");
      assert xs[0] + "" == xs[0];
    } else {
      var tail := [sep] + Join(xs[1..], sep);
      assert Join(xs, sep) == xs[0] + tail;
      SplitPiece(xs[0], sep, tail);
      assert tail[1..] == Join(xs[1..], sep);
      SplitJoin(xs[1..], sep);
      assert Split(tail, sep) == [""] + xs[1..];
      assert xs[0] + "" == xs[0];
    }
  }

  /** Joining two non-empty lists is joining each and putting one separator between them. */
  lemma {:induction false} JoinAppend(xs: seq<string>, ys: seq<string>, sep: char)
    requires |xs| > 0 && |ys| > 0
    ensures Join(xs + ys, sep) == Join(xs, sep) + [sep] + Join(ys, sep)
    decreases |xs|
  {
    if |xs| > 1 {
      assert (xs + ys)[1..] == xs[1..] + ys;
      JoinAppend(xs[1..], ys, sep);
    } else {
      assert (xs + ys)[1..] == ys;
    }
  }

  /** Two non-empty lists, each after a marker piece, joined as one list. */
  lemma JoinMarked(m1: string, xs: seq<string>, m2: string, ys: seq<string>, sep: char)
    requires |xs| > 0 && |ys| > 0
    ensures Join([m1] + xs + [m2] + ys, sep)
            == m1 + [sep] + Join(xs, sep) + [sep] + (m2 + [sep] + Join(ys, sep))
  {
    var head, tail := [m1] + xs, [m2] + ys;
    assert [m1] + xs + [m2] + ys == head + tail;
    assert head[1..] == xs && tail[1..] == ys;
    JoinAppend(head, tail, sep);
  }

  /** A character that is not the separator and is in no piece is not in the join. */
  lemma {:induction false} JoinAvoids(xs: seq<string>, sep: char, c: char)
    requires c != sep
    requires forall i :: 0 <= i < |xs| ==> c !in xs[i]
    ensures c !in Join(xs, sep)
  {
    if |xs| > 1 {
      JoinAvoids(xs[1..], sep, c);
    }
  }

  /** `str(n)` holds neither of the chart's separators. */
  lemma IntToStringHasNoSeparator(n: int)
    ensures ',' !in IntToString(n) && '|' !in IntToString(n)
  {
    var s := IntToString(n);
    assert forall i :: 0 <= i < |s| ==> s[i] != ',' && s[i] != '|';
  }
}
