/**
 * Character classes and string helpers shared by the validators: the
 * whitespace sets of JavaScript (`String.prototype.trim`, regex `\s`) and of
 * Python (`str.strip`), ASCII digits, trimming and character removal.
 */
module Text {

  /** JavaScript WhiteSpace and LineTerminator code points (what `trim` and `\s` remove or match). */
  predicate IsJsSpace(c: char) {
    if c <= ' ' then c == ' ' || ('\t' <= c <= '\r')
    else if c < '\U{00A0}' then false
    else
      c == '\U{00A0}' || c == '\U{1680}' || ('\U{2000}' <= c <= '\U{200A}')
      || c == '\U{2028}' || c == '\U{2029}' || c == '\U{202F}' || c == '\U{205F}'
      || c == '\U{3000}' || c == '\U{FEFF}'
  }

  /** The characters Python's `str.isspace` accepts, which `str.strip()` removes. */
  predicate IsPySpace(c: char) {
    if c <= ' ' then c == ' ' || ('\t' <= c <= '\r') || ('\U{001C}' <= c <= '\U{001F}')
    else if c < '\U{0085}' then false
    else
      c == '\U{0085}' || c == '\U{00A0}' || c == '\U{1680}' || ('\U{2000}' <= c <= '\U{200A}')
      || c == '\U{2028}' || c == '\U{2029}' || c == '\U{202F}' || c == '\U{205F}' || c == '\U{3000}'
  }

  /** Which language's whitespace a trim removes. */
  datatype Whitespace = JsWhitespace | PyWhitespace

  predicate IsSpace(ws: Whitespace, c: char) {
    match ws
    case JsWhitespace => IsJsSpace(c)
    case PyWhitespace => IsPySpace(c)
  }

  /** JavaScript `\d` and the ASCII digits. */
  predicate IsDigit(c: char) {
    '0' <= c <= '9'
  }

  /** Drops the leading whitespace. */
  function TrimStart(s: string, ws: Whitespace): (r: string)
    ensures |r| <= |s| && r == s[|s| - |r|..]
    ensures r == [] || !IsSpace(ws, r[0])
    ensures forall i :: 0 <= i < |s| - |r| ==> IsSpace(ws, s[i])
  {
    if s == [] || !IsSpace(ws, s[0]) then s else TrimStart(s[1..], ws)
  }

  /** Drops the trailing whitespace. */
  function TrimEnd(s: string, ws: Whitespace): (r: string)
    ensures |r| <= |s| && r == s[..|r|]
    ensures r == [] || !IsSpace(ws, r[|r| - 1])
    ensures forall i :: |r| <= i < |s| ==> IsSpace(ws, s[i])
  {
    if s == [] || !IsSpace(ws, s[|s| - 1]) then s else TrimEnd(s[..|s| - 1], ws)
  }

  /** Both ends trimmed; empty exactly when every character is whitespace. */
  function Trim(s: string, ws: Whitespace): (r: string)
    ensures r == [] <==> forall i :: 0 <= i < |s| ==> IsSpace(ws, s[i])
    ensures r != [] ==> !IsSpace(ws, r[0]) && !IsSpace(ws, r[|r| - 1])
    ensures |r| <= |s|
  {
    var left := TrimStart(s, ws);
    var r := TrimEnd(left, ws);
    assert r == [] ==> left == [];
    assert r != [] ==> left[0] == r[0];
    r
  }

  /** `s` with every occurrence of `c` removed (Python `s.replace(c, "")`). */
  function Remove(s: string, c: char): (r: string)
    ensures |r| <= |s|
    ensures forall i :: 0 <= i < |r| ==> r[i] != c
    ensures forall i :: 0 <= i < |r| ==> r[i] in s
    ensures forall i :: 0 <= i < |s| && s[i] != c ==> s[i] in r
    ensures multiset(r) == multiset(s)[c := 0]
  {
    if s == [] then []
    else
      assert s == [s[0]] + s[1..];
      if s[0] == c then Remove(s[1..], c)
      else [s[0]] + Remove(s[1..], c)
  }

  /** Removal works piece by piece, so what is left keeps its order. */
  lemma {:induction false} RemoveAppend(a: string, b: string, c: char)
    ensures Remove(a + b, c) == Remove(a, c) + Remove(b, c)
  {
    if a == [] {
      assert a + b == b;
    } else {
      assert (a + b)[0] == a[0] && (a + b)[1..] == a[1..] + b;
      RemoveAppend(a[1..], b, c);
    }
  }

  /** The ASCII digits of `s`, in order (JavaScript `s.replace(/\D/g, '')`). */
  function DigitsOf(s: string): (r: string)
    ensures |r| <= |s|
    ensures forall i :: 0 <= i < |r| ==> IsDigit(r[i])
  {
    if s == [] then []
    else if IsDigit(s[0]) then [s[0]] + DigitsOf(s[1..])
    else DigitsOf(s[1..])
  }

  /** Number of ASCII digits in `s`. */
  function DigitCount(s: string): nat {
    if s == [] then 0 else (if IsDigit(s[0]) then 1 else 0) + DigitCount(s[1..])
  }

  lemma {:induction false} DigitsOfLength(s: string)
    ensures |DigitsOf(s)| == DigitCount(s)
  {
    if s != [] {
      DigitsOfLength(s[1..]);
    }
  }

  /** Removing digits keeps the digits in their order: a string of digits is its own digit string. */
  lemma {:induction false} DigitsOfDigits(s: string)
    requires forall i :: 0 <= i < |s| ==> IsDigit(s[i])
    ensures DigitsOf(s) == s
  {
    if s != [] {
      DigitsOfDigits(s[1..]);
    }
  }

  /** Removing a character twice is removing it once. */
  lemma {:induction false} RemoveIdempotent(s: string, c: char)
    ensures Remove(Remove(s, c), c) == Remove(s, c)
  {
    if s != [] {
      RemoveIdempotent(s[1..], c);
    }
  }

  /** Trimming a trimmed string changes nothing. */
  lemma TrimIdempotent(s: string, ws: Whitespace)
    ensures Trim(Trim(s, ws), ws) == Trim(s, ws)
  {
    var r := Trim(s, ws);
    if r != [] {
      assert TrimStart(r, ws) == r;
      assert TrimEnd(r, ws) == r;
    }
  }

  lemma {:induction false} DigitsOfAppend(a: string, b: string)
    ensures DigitsOf(a + b) == DigitsOf(a) + DigitsOf(b)
  {
    if a == [] {
      assert a + b == b;
    } else {
      assert (a + b)[1..] == a[1..] + b;
      DigitsOfAppend(a[1..], b);
    }
  }

  lemma {:induction false} DigitsOfNoDigits(s: string)
    requires forall i :: 0 <= i < |s| ==> !IsDigit(s[i])
    ensures DigitsOf(s) == []
  {
    if s != [] {
      DigitsOfNoDigits(s[1..]);
    }
  }

  lemma {:induction false} DigitsOfTrimStart(s: string)
    ensures DigitsOf(TrimStart(s, JsWhitespace)) == DigitsOf(s)
  {
    if s != [] && IsJsSpace(s[0]) {
      assert !IsDigit(s[0]);
      DigitsOfTrimStart(s[1..]);
    }
  }

  lemma {:induction false} DigitsOfTrimEnd(s: string)
    ensures DigitsOf(TrimEnd(s, JsWhitespace)) == DigitsOf(s)
  {
    if s != [] && IsJsSpace(s[|s| - 1]) {
      var init, last := s[..|s| - 1], s[|s| - 1];
      assert s == init + [last];
      assert !IsDigit(last);
      assert DigitsOf([last]) == [];
      DigitsOfAppend(init, [last]);
      DigitsOfTrimEnd(init);
    }
  }

  /** JavaScript `trim()` never removes a digit. */
  lemma DigitsOfTrim(s: string)
    ensures DigitsOf(Trim(s, JsWhitespace)) == DigitsOf(s)
  {
    DigitsOfTrimStart(s);
    DigitsOfTrimEnd(TrimStart(s, JsWhitespace));
  }
}
