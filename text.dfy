/**
 * Character-level helpers shared by the whole model: the C string view of a
 * NUL-padded buffer, `strcat` of a list of strings, `strstr`, and the decimal
 * renderings that `sprintf("%u")` and `sprintf("%d")` produce.
 */
module Text {

  datatype Option<T> = None | Some(value: T)

  // ---------------------------------------------------------------------------
  // Concatenation (strcat in a loop)
  // ---------------------------------------------------------------------------

  /** The strings of `ss` joined left to right, with nothing in between. */
  function Concat(ss: seq<string>): string
  {
    if |ss| == 0 then "" else Concat(ss[..|ss| - 1]) + ss[|ss| - 1]
  }

  /** The sum of the lengths of the strings of `ss`. */
  function TotalLength(ss: seq<string>): nat
  {
    if |ss| == 0 then 0 else TotalLength(ss[..|ss| - 1]) + |ss[|ss| - 1]|
  }

  lemma ConcatSnoc(ss: seq<string>, s: string)
    ensures Concat(ss + [s]) == Concat(ss) + s
    ensures TotalLength(ss + [s]) == TotalLength(ss) + |s|
  {
    assert (ss + [s])[..|ss|] == ss;
  }

  /** Concatenation loses no character and invents none. */
  lemma {:induction false} ConcatLength(ss: seq<string>)
    ensures |Concat(ss)| == TotalLength(ss)
  {
    if |ss| > 0 {
      ConcatLength(ss[..|ss| - 1]);
    }
  }

  /** Concatenation distributes over the splitting of the list in two. */
  lemma {:induction false} ConcatAppend(a: seq<string>, b: seq<string>)
    ensures Concat(a + b) == Concat(a) + Concat(b)
    decreases |b|
  {
    if |b| == 0 {
      assert a + b == a;
    } else {
      var b' := b[..|b| - 1];
      assert a + b == (a + b') + [b[|b| - 1]];
      ConcatSnoc(a + b', b[|b| - 1]);
      ConcatAppend(a, b');
      ConcatSnoc(b', b[|b| - 1]);
      assert b' + [b[|b| - 1]] == b;
    }
  }

  /** Joining a list framed by `a` and `b` frames the joined text the same way. */
  lemma ConcatFramed(a: string, middle: seq<string>, b: string)
    ensures Concat([a] + middle + [b]) == a + Concat(middle) + b
  {
    ConcatSnoc([a] + middle, b);
    ConcatAppend([a], middle);
    assert [a] == [] + [a];
    ConcatSnoc([], a);
  }

  // ---------------------------------------------------------------------------
  // C strings
  // ---------------------------------------------------------------------------

  /**
   * The C string held by a buffer: everything before the first NUL byte, or
   * the whole buffer when it holds none (what `strcpy`, `strcmp` and
   * `strstr` see of it).
   */
  function CStr(s: string): (r: string)
    ensures r <= s
    ensures '\0' !in r
    ensures |r| < |s| ==> s[|r|] == '\0'
  {
    if |s| == 0 || s[0] == '\0' then "" else [s[0]] + CStr(s[1..])
  }

  /** A NUL-terminated string, seen without its terminator. */
  type CString = s: string | '\0' !in s

  lemma {:induction false} ConcatOfCStrings(ss: seq<CString>)
    ensures '\0' !in Concat(ss)
  {
    if |ss| > 0 {
      ConcatOfCStrings(ss[..|ss| - 1]);
    }
  }

  lemma CStrOfNulFree(s: string)
    requires '\0' !in s
    ensures CStr(s) == s
  {
  }

  // ---------------------------------------------------------------------------
  // Substring search (strstr)
  // ---------------------------------------------------------------------------

  predicate OccursAt(s: string, pat: string, i: nat)
  {
    i + |pat| <= |s| && s[i..i + |pat|] == pat
  }

  /** The first position at or after `from` where `pat` occurs in `s`. */
  function FindFrom(s: string, pat: string, from: nat): (r: Option<nat>)
    requires from <= |s|
    ensures r.Some? ==> from <= r.value && OccursAt(s, pat, r.value)
    ensures r.Some? ==> forall j :: from <= j < r.value ==> !OccursAt(s, pat, j)
    ensures r.None? ==> forall j :: from <= j <= |s| ==> !OccursAt(s, pat, j)
    decreases |s| - from
  {
    if OccursAt(s, pat, from) then Some(from)
    else if from == |s| then None
    else FindFrom(s, pat, from + 1)
  }

  /** The first position where `pat` occurs in `s`, as `strstr` finds it. */
  function Find(s: string, pat: string): (r: Option<nat>)
    ensures r.Some? ==> OccursAt(s, pat, r.value)
    ensures r.Some? ==> forall j :: 0 <= j < r.value ==> !OccursAt(s, pat, j)
    ensures r.None? ==> forall j :: 0 <= j <= |s| ==> !OccursAt(s, pat, j)
  {
    FindFrom(s, pat, 0)
  }

  // ---------------------------------------------------------------------------
  // Decimal numerals (sprintf "%u" and "%d")
  // ---------------------------------------------------------------------------

  predicate IsDigit(c: char)
  {
    '0' <= c <= '9'
  }

  predicate AllDigits(s: string)
  {
    forall i :: 0 <= i < |s| ==> IsDigit(s[i])
  }

  function DigitChar(d: nat): (c: char)
    requires d < 10
    ensures IsDigit(c) && c as int - '0' as int == d
  {
    (d + '0' as int) as char
  }

  function DigitValue(c: char): (d: nat)
    requires IsDigit(c)
    ensures d < 10 && DigitChar(d) == c
  {
    c as int - '0' as int
  }

  /** The shortest decimal numeral of `n`: digits only, no leading zero. */
  function NatToDecimal(n: nat): (s: string)
    ensures |s| >= 1 && AllDigits(s)
    ensures s[0] == '0' <==> n == 0
    ensures n < 10 <==> |s| == 1
  {
    if n < 10 then [DigitChar(n)] else NatToDecimal(n / 10) + [DigitChar(n % 10)]
  }

  /** The value of a numeral made of decimal digits. */
  function DecimalValue(s: string): nat
    requires AllDigits(s)
  {
    if |s| == 0 then 0 else DecimalValue(s[..|s| - 1]) * 10 + DigitValue(s[|s| - 1])
  }

  /** Reading back the numeral of `n` gives `n`; so numerals of distinct numbers differ. */
  lemma {:induction false} DecimalRoundTrip(n: nat)
    ensures DecimalValue(NatToDecimal(n)) == n
  {
    var s := NatToDecimal(n);
    if n >= 10 {
      DecimalRoundTrip(n / 10);
      assert s[..|s| - 1] == NatToDecimal(n / 10);
    }
  }

  /** The numeral of a signed `int`, with a leading '-' when it is negative (`%d`). */
  function IntToDecimal(i: int): (s: string)
    ensures |s| >= 1
    ensures s[0] == '-' <==> i < 0
    ensures i < 0 ==> AllDigits(s[1..])
    ensures i >= 0 ==> AllDigits(s)
  {
    if i < 0 then "-" + NatToDecimal(-i) else NatToDecimal(i)
  }

  /** The value of a signed numeral: optional '-', then decimal digits. */
  function SignedDecimalValue(s: string): int
    requires |s| >= 1
    requires s[0] == '-' ==> AllDigits(s[1..])
    requires s[0] != '-' ==> AllDigits(s)
  {
    if s[0] == '-' then -(DecimalValue(s[1..]) as int) else DecimalValue(s)
  }

  lemma SignedDecimalRoundTrip(i: int)
    ensures SignedDecimalValue(IntToDecimal(i)) == i
  {
    var s := IntToDecimal(i);
    if i < 0 {
      assert s[1..] == NatToDecimal(-i);
      DecimalRoundTrip(-i);
    } else {
      DecimalRoundTrip(i);
    }
  }

  /** A text `SignedDecimalValue` can read: an optional '-' and at least one digit. */
  predicate IsSignedNumeral(s: string)
  {
    && |s| >= 1
    && (s[0] == '-' ==> |s| >= 2 && AllDigits(s[1..]))
    && (s[0] != '-' ==> AllDigits(s))
  }

  /** Reading a `%d` numeral back. */
  function ParseInt(s: string): Option<int>
  {
    if IsSignedNumeral(s) then Some(SignedDecimalValue(s)) else None
  }

  /** A `%d` numeral is made of digits and at most a leading '-', and reads back as its value. */
  lemma ParseIntRoundTrip(i: int)
    ensures forall c :: c in IntToDecimal(i) ==> c == '-' || IsDigit(c)
    ensures ParseInt(IntToDecimal(i)) == Some(i)
  {
    var s := IntToDecimal(i);
    if i < 0 {
      assert s == "-" + NatToDecimal(-i);
      assert s[1..] == NatToDecimal(-i);
      forall c | c in s ensures c == '-' || IsDigit(c) {
        var j :| 0 <= j < |s| && s[j] == c;
        if j > 0 { assert s[j] == s[1..][j - 1]; }
      }
    }
    SignedDecimalRoundTrip(i);
  }

  // ---------------------------------------------------------------------------
  // Templates (sprintf with a fixed format string)
  // ---------------------------------------------------------------------------

  /** The text of `s` before its first `c`, or all of `s` when it holds none. */
  function UpTo(s: string, c: char): (r: string)
    ensures r <= s && c !in r
    ensures |r| < |s| ==> s[|r|] == c
  {
    if |s| == 0 || s[0] == c then "" else [s[0]] + UpTo(s[1..], c)
  }

  lemma {:induction false} UpToOf(a: string, c: char, t: string)
    requires c !in a && |t| > 0 && t[0] == c
    ensures UpTo(a + t, c) == a
  {
    if |a| > 0 {
      assert (a + t)[1..] == a[1..] + t;
      UpToOf(a[1..], c, t);
    }
  }

  /**
   * What `sprintf` writes for a format string made of the literal `pieces`
   * with one conversion between each two of them, `args` being the texts the
   * conversions produce.
   */
  function Format(pieces: seq<string>, args: seq<string>): string
    requires |pieces| == |args| + 1
    decreases |args|
  {
    if |args| == 0 then pieces[0] else pieces[0] + args[0] + Format(pieces[1..], args[1..])
  }

  /**
   * The conversions can be told from the literal text: every piece after a
   * conversion is non-empty, and its first character does not occur in what
   * that conversion produced.
   */
  predicate Separable(pieces: seq<string>, args: seq<string>)
    requires |pieces| == |args| + 1
  {
    forall i :: 1 <= i < |pieces| ==> |pieces[i]| > 0 && pieces[i][0] !in args[i - 1]
  }

  /**
   * Reading a text back against a format: match each literal piece and take
   * a conversion's text up to the first character of the piece after it.
   */
  function Unformat(pieces: seq<string>, s: string): (r: Option<seq<string>>)
    requires |pieces| >= 1
    ensures r.Some? ==> |r.value| == |pieces| - 1
    decreases |pieces|
  {
    if !(pieces[0] <= s) then None
    else if |pieces| == 1 then (if |s| == |pieces[0]| then Some([]) else None)
    else if |pieces[1]| == 0 then None
    else
      var rest := s[|pieces[0]|..];
      var arg := UpTo(rest, pieces[1][0]);
      var tail := Unformat(pieces[1..], rest[|arg|..]);
      if tail.None? then None else Some([arg] + tail.value)
  }

  lemma SeparableTail(pieces: seq<string>, args: seq<string>)
    requires |pieces| == |args| + 1 && |args| > 0 && Separable(pieces, args)
    ensures Separable(pieces[1..], args[1..])
  {
    forall i | 1 <= i < |pieces| - 1
      ensures |pieces[1..][i]| > 0 && pieces[1..][i][0] !in args[1..][i - 1]
    {
      assert pieces[1..][i] == pieces[i + 1] && args[1..][i - 1] == args[i];
    }
  }

  /** Reading back what `Format` wrote recovers the conversions' texts. */
  lemma {:induction false} FormatRoundTrip(pieces: seq<string>, args: seq<string>)
    requires |pieces| == |args| + 1 && Separable(pieces, args)
    ensures Unformat(pieces, Format(pieces, args)) == Some(args)
    decreases |args|
  {
    if |args| > 0 {
      var s := Format(pieces, args);
      var tailText := Format(pieces[1..], args[1..]);
      assert s == pieces[0] + (args[0] + tailText);
      var rest := s[|pieces[0]|..];
      assert rest == args[0] + tailText;
      SeparableTail(pieces, args);
      assert |pieces[1]| > 0 && pieces[1][0] !in args[0];
      assert tailText[0] == pieces[1][0];
      UpToOf(args[0], pieces[1][0], tailText);
      assert rest[|args[0]|..] == tailText;
      FormatRoundTrip(pieces[1..], args[1..]);
      assert [args[0]] + args[1..] == args;
    }
  }

  /** Whatever `Unformat` accepts is exactly what `Format` writes for the texts it returns. */
  lemma {:induction false} UnformatSound(pieces: seq<string>, s: string)
    requires |pieces| >= 1 && Unformat(pieces, s).Some?
    ensures Format(pieces, Unformat(pieces, s).value) == s
    decreases |pieces|
  {
    if |pieces| > 1 {
      var rest := s[|pieces[0]|..];
      var arg := UpTo(rest, pieces[1][0]);
      UnformatSound(pieces[1..], rest[|arg|..]);
      var args := Unformat(pieces, s).value;
      assert args[0] == arg && args[1..] == Unformat(pieces[1..], rest[|arg|..]).value;
      assert rest == arg + rest[|arg|..];
      assert s == pieces[0] + rest;
    }
  }

  /** A character in none of the pieces and none of the texts is not in the output. */
  lemma {:induction false} FormatExcludes(pieces: seq<string>, args: seq<string>, c: char)
    requires |pieces| == |args| + 1
    requires forall i :: 0 <= i < |pieces| ==> c !in pieces[i]
    requires forall i :: 0 <= i < |args| ==> c !in args[i]
    ensures c !in Format(pieces, args)
    decreases |args|
  {
    if |args| > 0 {
      assert forall i :: 0 <= i < |pieces| - 1 ==> pieces[1..][i] == pieces[i + 1];
      assert forall i :: 0 <= i < |args| - 1 ==> args[1..][i] == args[i + 1];
      FormatExcludes(pieces[1..], args[1..], c);
    }
  }

  /** The output ends with the last literal piece. */
  lemma {:induction false} FormatEnds(pieces: seq<string>, args: seq<string>)
    requires |pieces| == |args| + 1
    ensures var s := Format(pieces, args);
            |s| >= |pieces[|args|]| && s[|s| - |pieces[|args|]|..] == pieces[|args|]
    decreases |args|
  {
    if |args| > 0 {
      FormatEnds(pieces[1..], args[1..]);
      var t := Format(pieces[1..], args[1..]);
      var last := pieces[|args|];
      assert pieces[1..][|args| - 1] == last;
      var s := Format(pieces, args);
      assert s == (pieces[0] + args[0]) + t;
      assert s[|s| - |last|..] == t[|t| - |last|..];
    }
  }
}
