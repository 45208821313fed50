/**
 * The string operations `read_spec` relies on: `str.strip()`,
 * `str.startswith`, `str.split(', ')`, and the `int(...)` and `float(...)`
 * conversions of a token, over a plain decimal grammar.
 */
module Text {
  import opened Outcomes

  type String = seq<char>

  /** `c.isspace()` for a one-character Python string. */
  predicate IsSpace(c: char) {
    c == '\t' || c == '\n' || c == '\U{000B}' || c == '\U{000C}' || c == '\r' ||
    ('\U{001C}' <= c <= '\U{001F}') || c == ' ' || c == '\U{0085}' || c == '\U{00A0}' ||
    c == '\U{1680}' || ('\U{2000}' <= c <= '\U{200A}') || c == '\U{2028}' || c == '\U{2029}' ||
    c == '\U{202F}' || c == '\U{205F}' || c == '\U{3000}'
  }

  /**
   * The whitespace `int(token)` and `float(token)` skip around a token:
   * Python's whitespace except the four ASCII separators U+001C to U+001F,
   * which the conversions keep and then reject.
   */
  predicate IsNumberSpace(c: char) {
    IsSpace(c) && !('\U{001C}' <= c <= '\U{001F}')
  }

  /** `s.lstrip()`, for the whitespace set `space`. */
  function StripLeft(s: String, space: char -> bool): (r: String)
    ensures |r| <= |s| && r == s[|s| - |r|..]
    ensures forall j :: 0 <= j < |s| - |r| ==> space(s[j])
    ensures r == [] || !space(r[0])
  {
    if |s| > 0 && space(s[0]) then StripLeft(s[1..], space) else s
  }

  /** `s.rstrip()`, for the whitespace set `space`. */
  function StripRight(s: String, space: char -> bool): (r: String)
    ensures |r| <= |s| && r == s[..|r|]
    ensures forall j :: |r| <= j < |s| ==> space(s[j])
    ensures r == [] || !space(r[|r| - 1])
  {
    if |s| > 0 && space(s[|s| - 1]) then StripRight(s[..|s| - 1], space) else s
  }

  /** `s.strip()`: a slice of `s` with neither end a whitespace character. */
  function Strip(s: String): String {
    StripRight(StripLeft(s, IsSpace), IsSpace)
  }

  /** The token `int(token)` and `float(token)` read once surrounding whitespace is skipped. */
  function StripNumber(token: String): String {
    StripRight(StripLeft(token, IsNumberSpace), IsNumberSpace)
  }

  /**
   * The stripped string is empty exactly when `s` is all whitespace, and
   * otherwise starts with the first non-whitespace character of `s`.
   */
  lemma StripStart(s: String)
    ensures Strip(s) == [] <==> forall j :: 0 <= j < |s| ==> IsSpace(s[j])
    ensures Strip(s) != [] ==> exists i :: 0 <= i < |s| && FirstNonSpace(s, i) && Strip(s)[0] == s[i]
  {
    var l := StripLeft(s, IsSpace);
    var i := |s| - |l|;
    if l != [] {
      assert l[0] == s[i] && !IsSpace(l[0]);
      assert StripRight(l, IsSpace) != [];
      assert FirstNonSpace(s, i);
    } else {
      assert forall j :: 0 <= j < |s| ==> IsSpace(s[j]);
    }
  }

  /** `s[i]` is the first character of `s` that is not whitespace. */
  predicate FirstNonSpace(s: String, i: int) {
    0 <= i < |s| && !IsSpace(s[i]) && forall j :: 0 <= j < i ==> IsSpace(s[j])
  }

  // ---------------------------------------------------------------------
  // `s.split(', ')`

  /** `s` holds the separator `", "` at some position. */
  predicate HasSeparator(s: String) {
    exists i :: 0 <= i < |s| - 1 && s[i] == ',' && s[i + 1] == ' '
  }

  /** `', '.join(parts)` */
  function Join(parts: seq<String>): String {
    if |parts| == 0 then []
    else if |parts| == 1 then parts[0]
    else parts[0] + ", " + Join(parts[1..])
  }

  /**
   * `s.split(', ')`: the pieces between successive separators, left to
   * right. Joining them back gives `s`, and no piece holds a separator.
   */
  function Split(s: String): (r: seq<String>)
    ensures |r| >= 1
    ensures Join(r) == s
    ensures forall k :: 0 <= k < |r| ==> !HasSeparator(r[k])
    ensures |r[0]| <= |s| && r[0] == s[..|r[0]|]
  {
    if |s| < 2 then
      assert !HasSeparator(s);
      [s]
    else if s[0] == ',' && s[1] == ' ' then
      var rest := Split(s[2..]);
      assert !HasSeparator("");
      [""] + rest
    else
      var rest := Split(s[1..]);
      var head := [s[0]] + rest[0];
      PrependNoSeparator(s[0], rest[0], s[1]);
      JoinPrepend(s[0], rest);
      [head] + rest[1..]
  }

  /** A character put before a separator-free piece makes no separator unless it starts one. */
  lemma PrependNoSeparator(c: char, p: String, next: char)
    requires !HasSeparator(p) && (|p| > 0 ==> p[0] == next) && !(c == ',' && next == ' ')
    ensures !HasSeparator([c] + p)
  {
    var head := [c] + p;
    forall i | 0 <= i < |head| - 1
      ensures !(head[i] == ',' && head[i + 1] == ' ')
    {
      if i > 0 {
        assert head[i] == p[i - 1] && head[i + 1] == p[i];
      }
    }
  }

  /** Putting a character before the first part puts it before the join. */
  lemma JoinPrepend(c: char, parts: seq<String>)
    requires |parts| >= 1
    ensures Join([[c] + parts[0]] + parts[1..]) == [c] + Join(parts)
  {
    if |parts| > 1 {
      assert Join(parts) == parts[0] + ", " + Join(parts[1..]);
    }
  }

  /** A join of two or more parts holds a separator. */
  lemma JoinSeveral(parts: seq<String>)
    requires |parts| >= 2
    ensures Join(parts) == parts[0] + ", " + Join(parts[1..])
    ensures |Join(parts)| >= |parts[0]| + 2
    ensures Join(parts)[|parts[0]|] == ',' && Join(parts)[|parts[0]| + 1] == ' '
  {
  }

  /**
   * `split` is the only way to cut `s` into separator-free pieces: any
   * such pieces that join back into `s` are `Split(s)`.
   */
  lemma {:induction false} SplitUnique(s: String, parts: seq<String>)
    requires |parts| >= 1 && Join(parts) == s
    requires forall k :: 0 <= k < |parts| ==> !HasSeparator(parts[k])
    ensures Split(s) == parts
    decreases |s|
  {
    if |parts| >= 2 {
      JoinSeveral(parts);
    }
    if |s| < 2 {
      assert |parts| == 1;
    } else if s[0] == ',' && s[1] == ' ' {
      assert |parts| >= 2 by {
        assert HasSeparator(s);
      }
      var p := parts[0];
      assert p == s[..|p|];
      assert |p| == 0;
      assert s[2..] == Join(parts[1..]);
      SplitUnique(s[2..], parts[1..]);
      assert parts == [""] + parts[1..];
    } else {
      var p := parts[0];
      assert |p| >= 1;
      var tail := [p[1..]] + parts[1..];
      assert !HasSeparator(p[1..]) by {
        forall i | 0 <= i < |p[1..]| - 1
          ensures !(p[1..][i] == ',' && p[1..][i + 1] == ' ')
        {
          assert p[1..][i] == p[i + 1] && p[1..][i + 1] == p[i + 2];
        }
      }
      assert forall k :: 1 <= k < |tail| ==> tail[k] == parts[k];
      assert Join(tail) == s[1..] by {
        if |parts| >= 2 {
          JoinSeveral(tail);
          assert tail[1..] == parts[1..];
        }
      }
      SplitUnique(s[1..], tail);
      assert p == [s[0]] + p[1..];
      assert parts == [[s[0]] + tail[0]] + tail[1..];
    }
  }

  /** Splitting a join of separator-free parts gives the parts back. */
  lemma SplitJoin(parts: seq<String>)
    requires |parts| >= 1
    requires forall k :: 0 <= k < |parts| ==> !HasSeparator(parts[k])
    ensures Split(Join(parts)) == parts
  {
    SplitUnique(Join(parts), parts);
  }

  // ---------------------------------------------------------------------
  // `int(token)` and `float(token)`

  predicate IsDigit(c: char) {
    '0' <= c <= '9'
  }

  predicate AllDigits(s: String) {
    forall i :: 0 <= i < |s| ==> IsDigit(s[i])
  }

  /** The number a string of decimal digits denotes. */
  function DigitsValue(s: String): nat
    requires AllDigits(s)
  {
    if |s| == 0 then 0 else 10 * DigitsValue(s[..|s| - 1]) + (s[|s| - 1] - '0') as nat
  }

  function Pow10(n: nat): (r: nat)
    ensures r > 0
  {
    if n == 0 then 1 else 10 * Pow10(n - 1)
  }

  /** Splits an optional leading `+` or `-` off `t`: the sign factor and the rest. */
  function SignOf(t: String): (r: (int, String))
    ensures r.0 == 1 || r.0 == -1
    ensures |r.1| <= |t| && r.1 == t[|t| - |r.1|..]
  {
    if |t| > 0 && t[0] == '-' then (-1, t[1..])
    else if |t| > 0 && t[0] == '+' then (1, t[1..])
    else (1, t)
  }

  /**
   * `int(token)`: surrounding whitespace, an optional sign and at least one
   * decimal digit. Anything else is a ValueError, here `None`.
   */
  function ParseInt(token: String): Option<int> {
    var (sign, digits) := SignOf(StripNumber(token));
    if |digits| > 0 && AllDigits(digits) then Some(sign * DigitsValue(digits)) else None
  }

  /** The position of the first `.` in `s`, or `|s|` when there is none. */
  function PointIndex(s: String): (i: nat)
    ensures i <= |s|
    ensures forall j :: 0 <= j < i ==> s[j] != '.'
    ensures i < |s| ==> s[i] == '.'
  {
    if |s| == 0 || s[0] == '.' then 0 else 1 + PointIndex(s[1..])
  }

  /**
   * `float(token)` for decimal tokens: surrounding whitespace, an optional
   * sign, digits with at most one `.`, and at least one digit in all.
   */
  function ParseReal(token: String): Option<real> {
    var (sign, body) := SignOf(StripNumber(token));
    var p := PointIndex(body);
    var whole := body[..p];
    var fraction := if p < |body| then body[p + 1..] else [];
    if |whole| + |fraction| > 0 && AllDigits(whole) && AllDigits(fraction) then
      Some(sign as real * (DigitsValue(whole) as real + DigitsValue(fraction) as real / Pow10(|fraction|) as real))
    else
      None
  }

  /**
   * `strip()` removes a leading U+001C where `int` and `float` do not: the
   * line `"\x1c1"` is a data line, yet neither conversion accepts it.
   */
  lemma SeparatorIsNotNumberSpace()
    ensures Strip("\U{001C}1") == "1"
    ensures ParseInt("\U{001C}1") == None && ParseReal("\U{001C}1") == None
  {
    SeparatorStripped();
    SeparatorKept();
    NumberRejected("\U{001C}1");
  }

  /** Neither conversion accepts a token that starts with a character other than a sign, a digit or `.`. */
  lemma NumberRejected(token: String)
    requires StripNumber(token) == token && |token| > 0
    requires token[0] != '-' && token[0] != '+' && token[0] != '.' && !IsDigit(token[0])
    ensures ParseInt(token) == None && ParseReal(token) == None
  {
    assert SignOf(token) == (1, token);
    assert PointIndex(token) > 0;
    assert !AllDigits(token[..PointIndex(token)]) by {
      assert token[..PointIndex(token)][0] == token[0];
    }
  }

  lemma SeparatorStripped()
    ensures Strip("\U{001C}1") == "1"
  {
    var s := "\U{001C}1";
    assert IsSpace(s[0]) && !IsSpace(s[1]);
    assert StripLeft(s, IsSpace) == StripLeft(s[1..], IsSpace);
    assert s[1..] == "1";
  }

  lemma SeparatorKept()
    ensures StripNumber("\U{001C}1") == "\U{001C}1"
  {
    var s := "\U{001C}1";
    assert !IsNumberSpace(s[0]) && !IsNumberSpace(s[1]);
    StripNumberUnchanged(s);
  }

  /** A token `int` accepts, `float` accepts too, with the same value. */
  lemma IntTokenIsRealToken(token: String)
    requires ParseInt(token).Some?
    ensures ParseReal(token) == Some(ParseInt(token).value as real)
  {
    var (sign, body) := SignOf(StripNumber(token));
    var p := PointIndex(body);
    assert p == |body|;
    assert body[..p] == body;
  }

  // ---------------------------------------------------------------------
  // The decimal spelling of an integer, inverse of `ParseInt`.

  /** `str(n)` for a natural number `n`. */
  function ShowNat(n: nat): (s: String)
    ensures |s| > 0 && AllDigits(s)
  {
    if n < 10 then [('0' as int + n) as char]
    else ShowNat(n / 10) + [('0' as int + n % 10) as char]
  }

  /** `str(n)` */
  function ShowInt(n: int): String {
    if n < 0 then "-" + ShowNat(-n) else ShowNat(n)
  }

  lemma {:induction false} DigitsOfShowNat(n: nat)
    ensures DigitsValue(ShowNat(n)) == n
  {
    var s := ShowNat(n);
    if n >= 10 {
      DigitsOfShowNat(n / 10);
      assert s[..|s| - 1] == ShowNat(n / 10);
    }
  }

  /** A token with no skipped whitespace at either end is read as it stands. */
  lemma StripNumberUnchanged(s: String)
    requires s == [] || (!IsNumberSpace(s[0]) && !IsNumberSpace(s[|s| - 1]))
    ensures StripNumber(s) == s
  {
  }

  /** `str(n)` has no surrounding whitespace. */
  lemma ShowIntUnstripped(n: int)
    ensures StripNumber(ShowInt(n)) == ShowInt(n)
  {
    var s := ShowInt(n);
    var digits := ShowNat(if n < 0 then -n else n);
    assert IsDigit(digits[0]) && IsDigit(digits[|digits| - 1]);
    assert s[|s| - 1] == digits[|digits| - 1];
    assert s[0] == '-' || s[0] == digits[0];
    StripNumberUnchanged(s);
  }

  /** The sign and digits of `str(n)` are those of `n`. */
  lemma ShowIntSign(n: int)
    ensures SignOf(ShowInt(n)) == (if n < 0 then -1 else 1, ShowNat(if n < 0 then -n else n))
  {
    var digits := ShowNat(if n < 0 then -n else n);
    if n < 0 {
      assert ShowInt(n) == "-" + digits;
      assert ShowInt(n)[1..] == digits;
    } else {
      assert ShowInt(n) == digits;
    }
  }

  /** `int(token)` of a token that needs no stripping and has a sign and digits. */
  lemma ParseIntOfSigned(token: String, sign: int, digits: String)
    requires StripNumber(token) == token && SignOf(token) == (sign, digits)
    requires |digits| > 0 && AllDigits(digits)
    ensures ParseInt(token) == Some(sign * DigitsValue(digits))
  {
  }

  /** `int(str(n)) == n` */
  lemma ParseShowInt(n: int)
    ensures ParseInt(ShowInt(n)) == Some(n)
  {
    var m := if n < 0 then -n else n;
    DigitsOfShowNat(m);
    ShowIntUnstripped(n);
    ShowIntSign(n);
    ParseIntOfSigned(ShowInt(n), if n < 0 then -1 else 1, ShowNat(m));
  }

  /** `str(n)` holds no separator: it is digits after an optional `-`. */
  lemma ShowIntHasNoSeparator(n: int)
    ensures !HasSeparator(ShowInt(n))
  {
    var s := ShowInt(n);
    var digits := ShowNat(if n < 0 then -n else n);
    assert forall i :: 0 <= i < |s| ==> s[i] == '-' || IsDigit(s[i]) by {
      if n < 0 {
        assert forall i :: 1 <= i < |s| ==> s[i] == digits[i - 1];
      }
    }
  }

  /** `float(str(n)) == n` */
  lemma ParseRealShowInt(n: int)
    ensures ParseReal(ShowInt(n)) == Some(n as real)
  {
    ParseShowInt(n);
    IntTokenIsRealToken(ShowInt(n));
  }
}
