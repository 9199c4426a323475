/** The few `java.lang.String` and utility-library operations the nodes rely on,
    written out over `seq<char>`. */
module Text {

  import opened Host

  /** `Character.isWhitespace` on the ASCII range: space, tab, line feed,
      vertical tab, form feed, carriage return and the four separators 0x1C-0x1F. */
  predicate IsJavaWhitespace(c: char)
  {
    c == ' ' || 9 <= c as int <= 13 || 28 <= c as int <= 31
  }

  /** `TextUtils.isBlank` for a non-null string: every character is whitespace. */
  predicate IsBlank(s: string)
    ensures s == [] ==> IsBlank(s)
    ensures IsBlank(s) ==> IsTrimBlank(s)
  {
    forall i :: 0 <= i < |s| ==> IsJavaWhitespace(s[i])
  }

  /** `s.trim().isEmpty()`: `trim` strips every character at or below the space. */
  predicate IsTrimBlank(s: string)
    ensures s == [] ==> IsTrimBlank(s)
    ensures IsTrimBlank(s) ==> forall i :: 0 <= i < |s| ==> !IsDigit(s[i])
  {
    forall i :: 0 <= i < |s| ==> s[i] <= ' '
  }

  function UpperAscii(c: char): char
  {
    if 'a' <= c <= 'z' then (c as int - 32) as char else c
  }

  /** `String.equalsIgnoreCase`, with case folding restricted to ASCII letters. */
  predicate EqualsIgnoreCase(a: string, b: string)
  {
    |a| == |b| && forall i :: 0 <= i < |a| ==> UpperAscii(a[i]) == UpperAscii(b[i])
  }

  // ---------------------------------------------------------------- decimal

  predicate IsDigit(c: char)
  {
    '0' <= c <= '9'
  }

  function DigitChar(d: nat): (c: char)
    requires d < 10
    ensures IsDigit(c)
  {
    ('0' as int + d) as char
  }

  function DigitValue(c: char): (d: nat)
    requires IsDigit(c)
    ensures d < 10
  {
    c as int - '0' as int
  }

  /** Decimal digits of a natural number, most significant first, no leading zero. */
  function NatToDecimal(n: nat): (s: string)
    ensures |s| >= 1
    ensures forall i :: 0 <= i < |s| ==> IsDigit(s[i])
    ensures n > 0 ==> s[0] != '0'
  {
    if n < 10 then [DigitChar(n)] else NatToDecimal(n / 10) + [DigitChar(n % 10)]
  }

  /** `%d` / `Integer.toString`: an optional minus sign, then the digits of the magnitude. */
  function IntToDecimal(i: int): string
  {
    if i < 0 then "-" + NatToDecimal(-i) else NatToDecimal(i)
  }

  /** The number a string of decimal digits denotes; the inverse of `NatToDecimal`. */
  function DecimalValue(s: string): nat
    requires forall i :: 0 <= i < |s| ==> IsDigit(s[i])
  {
    if s == [] then 0 else DecimalValue(s[..|s| - 1]) * 10 + DigitValue(s[|s| - 1])
  }

  lemma {:induction false} DecimalRoundTrip(n: nat)
    ensures DecimalValue(NatToDecimal(n)) == n
  {
    var s := NatToDecimal(n);
    if n >= 10 {
      assert s[..|s| - 1] == NatToDecimal(n / 10);
      DecimalRoundTrip(n / 10);
    }
  }

  predicate AllDigits(s: string)
  {
    forall i :: 0 <= i < |s| ==> IsDigit(s[i])
  }

  /** `Integer.parseInt` of a decimal numeral: an optional minus sign, then digits. */
  function ParseDecimal(s: string): Option<int>
  {
    if |s| >= 2 && s[0] == '-' && AllDigits(s[1..]) then Some(0 - DecimalValue(s[1..]) as int)
    else if |s| >= 1 && AllDigits(s) then Some(DecimalValue(s))
    else None
  }

  /** The decimal text of any integer parses back to it. */
  lemma IntDecimalRoundTrip(i: int)
    ensures ParseDecimal(IntToDecimal(i)) == Some(i)
  {
    if i < 0 {
      var digits := NatToDecimal(-i);
      DecimalRoundTrip(-i);
      assert AllDigits(digits);
      assert ("-" + digits)[1..] == digits;
    } else {
      var digits := NatToDecimal(i);
      DecimalRoundTrip(i);
      assert AllDigits(digits) && IsDigit(digits[0]);
    }
  }

  /** `String.indexOf` of a character: the first position holding it, if any. */
  function IndexOf(s: string, c: char): (r: Option<nat>)
    ensures r.Some? ==> r.value < |s| && s[r.value] == c && c !in s[..r.value]
    ensures r.None? <==> c !in s
  {
    if s == [] then None
    else if s[0] == c then Some(0)
    else match IndexOf(s[1..], c)
      case None => None
      case Some(i) =>
        assert s[..i + 1] == [s[0]] + s[1..][..i];
        Some(i + 1)
  }

  /** `String.replaceAll` of a one-character pattern by nothing: every occurrence removed. */
  function RemoveAll(s: string, c: char): (r: string)
  {
    if s == [] then [] else (if s[0] == c then [] else [s[0]]) + RemoveAll(s[1..], c)
  }

  /** Every occurrence is removed, and a string without one is left as it is. */
  lemma {:induction false} RemoveAllRemoves(s: string, c: char)
    ensures c !in RemoveAll(s, c)
    ensures c !in s ==> RemoveAll(s, c) == s
  {
    if s != [] {
      RemoveAllRemoves(s[1..], c);
      if c !in s {
        assert c !in s[1..];
      }
    }
  }

  /** `JsonValue.toString` of a stored value: JSON text, with a string in double
      quotes (escape sequences are not modelled). */
  function JsonText(v: Value): string
  {
    match v
    case Null => "null"
    case Text(s) => "\"" + s + "\""
    case Int(i) => IntToDecimal(i)
    case Json(doc) => doc
  }

  // ---------------------------------------------------------------- replace

  predicate OccursAt(s: string, i: nat, pat: string)
  {
    i + |pat| <= |s| && s[i..i + |pat|] == pat
  }

  /** `String.replace(target, replacement)`: every non-overlapping occurrence of
      `pat`, scanning left to right, is replaced by `rep`. */
  function Replace(s: string, pat: string, rep: string): string
    requires |pat| > 0
    decreases |s|
  {
    if |s| < |pat| then s
    else if s[..|pat|] == pat then rep + Replace(s[|pat|..], pat, rep)
    else [s[0]] + Replace(s[1..], pat, rep)
  }

  /** A string without any occurrence of the target is left as it is. */
  lemma {:induction false} ReplaceAbsent(s: string, pat: string, rep: string)
    requires |pat| > 0
    requires forall i: nat :: i < |s| ==> !OccursAt(s, i, pat)
    ensures Replace(s, pat, rep) == s
  {
    if |s| >= |pat| {
      assert !OccursAt(s, 0, pat);
      forall i: nat | i < |s[1..]| ensures !OccursAt(s[1..], i, pat) {
        if i + |pat| <= |s[1..]| {
          assert s[1..][i..i + |pat|] == s[i + 1..i + 1 + |pat|];
          assert !OccursAt(s, i + 1, pat);
        }
      }
      ReplaceAbsent(s[1..], pat, rep);
    }
  }

  /** A prefix in which no occurrence can start, because it does not contain the
      target's first character, is copied unchanged. */
  lemma {:induction false} ReplaceSkipsPrefix(a: string, b: string, pat: string, rep: string)
    requires |pat| > 0
    requires pat[0] !in a
    ensures Replace(a + b, pat, rep) == a + Replace(b, pat, rep)
    decreases |a|
  {
    var s := a + b;
    if a == [] {
      assert s == b;
    } else if |s| < |pat| {
      assert Replace(b, pat, rep) == b;
    } else {
      assert s[..|pat|][0] == a[0] != pat[0];
      assert Replace(s, pat, rep) == [a[0]] + Replace(s[1..], pat, rep);
      assert s[1..] == a[1..] + b;
      ReplaceSkipsPrefix(a[1..], b, pat, rep);
      assert a == [a[0]] + a[1..];
    }
  }

  /** A character at which no occurrence starts is copied. */
  lemma ReplaceNoMatchAtFront(s: string, pat: string, rep: string)
    requires |pat| > 0 && s != []
    requires !OccursAt(s, 0, pat)
    ensures Replace(s, pat, rep) == [s[0]] + Replace(s[1..], pat, rep)
  {
  }

  /** An occurrence at the front is rewritten. */
  lemma ReplaceAtFront(b: string, pat: string, rep: string)
    requires |pat| > 0
    ensures Replace(pat + b, pat, rep) == rep + Replace(b, pat, rep)
  {
    assert (pat + b)[..|pat|] == pat;
    assert (pat + b)[|pat|..] == b;
  }

  // ---------------------------------------------------------------- split

  /** Every piece between occurrences of `d` (there is always at least one piece). */
  function SplitAll(s: string, d: char): (r: seq<string>)
    ensures |r| >= 1
    ensures forall k :: 0 <= k < |r| ==> d !in r[k]
    decreases |s|
  {
    if s == [] then [""]
    else if s[0] == d then [""] + SplitAll(s[1..], d)
    else
      var rest := SplitAll(s[1..], d);
      [[s[0]] + rest[0]] + rest[1..]
  }

  function StripTrailingEmpty(r: seq<string>): (t: seq<string>)
    ensures t <= r
  {
    if r != [] && r[|r| - 1] == "" then StripTrailingEmpty(r[..|r| - 1]) else r
  }

  /** `String.split` on a single literal character: the whole input when the
      character does not occur, otherwise the pieces with trailing empty pieces removed. */
  function JavaSplit(s: string, d: char): (r: seq<string>)
    ensures d !in s ==> r == [s]
    ensures forall k :: 0 <= k < |r| ==> d !in r[k]
  {
    if d !in s then [s] else StripTrailingEmpty(SplitAll(s, d))
  }

  /** `String.join` of at least one piece. */
  function Join(ps: seq<string>, d: char): string
    requires |ps| >= 1
  {
    if |ps| == 1 then ps[0] else ps[0] + [d] + Join(ps[1..], d)
  }

  lemma {:induction false} SplitAllPrefix(w: string, t: string, d: char)
    requires d !in w
    ensures SplitAll(w + t, d) == [w + SplitAll(t, d)[0]] + SplitAll(t, d)[1..]
  {
    if w != [] {
      assert (w + t)[1..] == w[1..] + t;
      assert (w + t)[0] == w[0];
      SplitAllPrefix(w[1..], t, d);
      assert [w[0]] + (w[1..] + SplitAll(t, d)[0]) == w + SplitAll(t, d)[0];
    } else {
      var r := SplitAll(t, d);
      assert w + t == t;
      assert r == [r[0]] + r[1..];
      assert w + r[0] == r[0];
    }
  }

  lemma {:induction false} SplitAllJoin(ps: seq<string>, d: char)
    requires |ps| >= 1
    requires forall k :: 0 <= k < |ps| ==> d !in ps[k]
    ensures SplitAll(Join(ps, d), d) == ps
  {
    if |ps| == 1 {
      SplitAllPrefix(ps[0], "", d);
      assert ps[0] + "" == ps[0];
    } else {
      var t := [d] + Join(ps[1..], d);
      assert Join(ps, d) == ps[0] + t;
      SplitAllPrefix(ps[0], t, d);
      assert t[1..] == Join(ps[1..], d);
      SplitAllJoin(ps[1..], d);
      assert SplitAll(t, d) == [""] + ps[1..];
      assert ps[0] + "" == ps[0];
    }
  }

  lemma {:induction false} JoinContains(ps: seq<string>, d: char)
    requires |ps| >= 2
    ensures d in Join(ps, d)
  {
    assert Join(ps, d)[|ps[0]|] == d;
  }

  /** Splitting the join of dot-free pieces whose last piece is not empty gives the pieces back. */
  lemma SplitJoin(ps: seq<string>, d: char)
    requires |ps| >= 1
    requires forall k :: 0 <= k < |ps| ==> d !in ps[k]
    requires ps[|ps| - 1] != ""
    ensures JavaSplit(Join(ps, d), d) == ps
  {
    if |ps| == 1 {
      assert Join(ps, d) == ps[0];
    } else {
      JoinContains(ps, d);
      SplitAllJoin(ps, d);
    }
  }

  /** A slash-free scheme, "//" and a slash-free part after it are copied unchanged by
      the rewrite of a target that starts with "//" and then a character other than
      the part's first. */
  lemma {:induction false} ReplaceSkipsSchemeSlashes(scheme: string, mid: string, tail: string, pat: string, rep: string)
    requires |pat| >= 3 && pat[0] == '/' && pat[1] == '/'
    requires '/' !in scheme
    requires mid != [] && mid[0] != pat[2] && '/' !in mid
    ensures Replace(scheme + "//" + mid + tail, pat, rep) == scheme + "//" + mid + Replace(tail, pat, rep)
  {
    ReplaceSkipsSlashes(mid, tail, pat, rep);
    assert scheme + "//" + mid + tail == scheme + ("//" + mid + tail);
    ReplaceSkipsPrefix(scheme, "//" + mid + tail, pat, rep);
    assert scheme + ("//" + mid + Replace(tail, pat, rep)) == scheme + "//" + mid + Replace(tail, pat, rep);
  }

  /** "//" and a slash-free part after it are copied unchanged by the rewrite of a
      target that starts with "//" and then a character other than the part's first. */
  lemma {:induction false} ReplaceSkipsSlashes(mid: string, tail: string, pat: string, rep: string)
    requires |pat| >= 3 && pat[0] == '/' && pat[1] == '/'
    requires mid != [] && mid[0] != pat[2] && '/' !in mid
    ensures Replace("//" + mid + tail, pat, rep) == "//" + mid + Replace(tail, pat, rep)
  {
    var y := "/" + (mid + tail);
    var x := "/" + y;
    assert x == "//" + mid + tail;
    assert x[2] == mid[0] != pat[2];
    assert |pat| <= |x| ==> x[0..|pat|][2] == x[2];
    ReplaceNoMatchAtFront(x, pat, rep);
    assert x[1..] == y;
    assert y[1] == mid[0] != pat[1];
    assert |pat| <= |y| ==> y[0..|pat|][1] == y[1];
    ReplaceNoMatchAtFront(y, pat, rep);
    assert y[1..] == mid + tail;
    ReplaceSkipsPrefix(mid, tail, pat, rep);
    assert Replace(x, pat, rep) == "/" + ("/" + (mid + Replace(tail, pat, rep)));
    assert "/" + ("/" + (mid + Replace(tail, pat, rep))) == "//" + mid + Replace(tail, pat, rep);
  }

  /** A single occurrence between two parts that cannot start one is rewritten. */
  lemma {:induction false} ReplaceOnce(a: string, b: string, pat: string, rep: string)
    requires |pat| > 0 && pat[0] !in a && pat[0] !in b
    ensures Replace(a + pat + b, pat, rep) == a + rep + b
  {
    assert a + pat + b == a + (pat + b);
    ReplaceSkipsPrefix(a, pat + b, pat, rep);
    ReplaceAtFront(b, pat, rep);
    ReplaceSkipsPrefix(b, "", pat, rep);
    assert b + "" == b;
    assert Replace("", pat, rep) == "";
    assert a + (rep + b) == a + rep + b;
  }

  /** Removing a character distributes over concatenation. */
  lemma {:induction false} RemoveAllAppend(a: string, b: string, c: char)
    ensures RemoveAll(a + b, c) == RemoveAll(a, c) + RemoveAll(b, c)
  {
    if a != [] {
      var head := if a[0] == c then [] else [a[0]];
      assert (a + b)[0] == a[0];
      assert (a + b)[1..] == a[1..] + b;
      RemoveAllAppend(a[1..], b, c);
      calc {
        RemoveAll(a + b, c);
        head + RemoveAll(a[1..] + b, c);
        head + (RemoveAll(a[1..], c) + RemoveAll(b, c));
        (head + RemoveAll(a[1..], c)) + RemoveAll(b, c);
        RemoveAll(a, c) + RemoveAll(b, c);
      }
    } else {
      assert a + b == b;
    }
  }
}
