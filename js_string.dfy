/** The string operations the component relies on: `String.prototype.trim` and number-to-string. */
module JsString {

  /**
   * The characters `trim` removes: ECMAScript's WhiteSpace (tab, vertical tab,
   * form feed, space, no-break space, the byte order mark and the other
   * space separators) and LineTerminator (line feed, carriage return, line
   * and paragraph separators).
   */
  predicate IsWhitespace(c: char)
    ensures c == ' ' || '\U{0009}' <= c <= '\U{000D}' ==> IsWhitespace(c)
    ensures '!' <= c <= '~' ==> !IsWhitespace(c)
  {
    || c == '\U{0009}' || c == '\U{000B}' || c == '\U{000C}' || c == ' '
    || c == '\U{00A0}' || c == '\U{FEFF}' || c == '\U{1680}'
    || ('\U{2000}' <= c <= '\U{200A}')
    || c == '\U{202F}' || c == '\U{205F}' || c == '\U{3000}'
    || c == '\n' || c == '\r' || c == '\U{2028}' || c == '\U{2029}'
  }

  /** Every character of `s` is whitespace (so `s.trim()` is empty and falsy). */
  ghost predicate Blank(s: string) {
    forall i :: 0 <= i < |s| ==> IsWhitespace(s[i])
  }

  /** `s` with its leading whitespace removed. */
  function TrimStart(s: string): string {
    if s != [] && IsWhitespace(s[0]) then TrimStart(s[1..]) else s
  }

  /** `s` with its trailing whitespace removed. */
  function TrimEnd(s: string): string {
    if s != [] && IsWhitespace(s[|s| - 1]) then TrimEnd(s[..|s| - 1]) else s
  }

  /** `s.trim()`: never longer than `s` (`TrimSpec` says which slice it is). */
  function Trim(s: string): (r: string)
    ensures |r| <= |s|
  {
    TrimStartSpec(s);
    TrimEndSpec(TrimStart(s));
    TrimEnd(TrimStart(s))
  }

  /** TrimStart removes a prefix of whitespace and stops at the first other character. */
  lemma {:induction false} TrimStartSpec(s: string)
    ensures var r := TrimStart(s);
      && |r| <= |s| && r == s[|s| - |r|..]
      && (r == [] || !IsWhitespace(r[0]))
      && (forall k :: 0 <= k < |s| - |r| ==> IsWhitespace(s[k]))
  {
    if s != [] && IsWhitespace(s[0]) {
      var rest := s[1..];
      TrimStartSpec(rest);
      var r := TrimStart(rest);
      assert TrimStart(s) == r;
      assert rest[|rest| - |r|..] == s[|s| - |r|..];
      forall k | 0 <= k < |s| - |r| ensures IsWhitespace(s[k]) {
        if k > 0 {
          assert s[k] == rest[k - 1];
        }
      }
    }
  }

  /** TrimEnd removes a suffix of whitespace and stops at the last other character. */
  lemma {:induction false} TrimEndSpec(s: string)
    ensures var r := TrimEnd(s);
      && |r| <= |s| && r == s[..|r|]
      && (r == [] || !IsWhitespace(r[|r| - 1]))
      && (forall k :: |r| <= k < |s| ==> IsWhitespace(s[k]))
  {
    if s != [] && IsWhitespace(s[|s| - 1]) {
      var rest := s[..|s| - 1];
      TrimEndSpec(rest);
      var r := TrimEnd(rest);
      assert TrimEnd(s) == r;
      assert rest[..|r|] == s[..|r|];
      forall k | |r| <= k < |s| ensures IsWhitespace(s[k]) {
        if k < |s| - 1 {
          assert s[k] == rest[k];
        }
      }
    }
  }

  /**
   * `s.trim()` is the slice of `s` that starts and ends with a non-whitespace
   * character, with only whitespace outside it.
   */
  lemma TrimSpec(s: string)
    ensures var r, start := Trim(s), |s| - |TrimStart(s)|;
      && 0 <= start && start + |r| <= |s|
      && r == s[start..start + |r|]
      && (forall k :: 0 <= k < start ==> IsWhitespace(s[k]))
      && (forall k :: start + |r| <= k < |s| ==> IsWhitespace(s[k]))
      && (r == [] || (!IsWhitespace(r[0]) && !IsWhitespace(r[|r| - 1])))
  {
    var t := TrimStart(s);
    TrimStartSpec(s);
    TrimEndSpec(t);
    var r, start := Trim(s), |s| - |t|;
    assert r == TrimEnd(t) == t[..|r|];
    assert t == s[start..];
    assert r == s[start..start + |r|];
    forall k | start + |r| <= k < |s| ensures IsWhitespace(s[k]) {
      assert s[k] == t[k - start];
    }
    if r != [] {
      assert r[0] == t[0];
    }
  }

  /** `s.trim()` is empty exactly when `s` is empty or all whitespace. */
  lemma TrimEmptyIffBlank(s: string)
    ensures Trim(s) == [] <==> Blank(s)
  {
    var t := TrimStart(s);
    TrimSpec(s);
    TrimStartSpec(s);
    TrimEndSpec(t);
    if Trim(s) == [] {
      // a non-empty TrimStart(s) begins with a character TrimEnd keeps
      assert t == [];
    } else {
      var start := |s| - |t|;
      assert s[start] == Trim(s)[0];
    }
  }

  /** Trimming twice is the same as trimming once. */
  lemma TrimIdempotent(s: string)
    ensures Trim(Trim(s)) == Trim(s)
  {
    var r := Trim(s);
    TrimSpec(s);
    if r != [] {
      assert TrimStart(r) == r;
      assert TrimEnd(r) == r;
    }
  }

  /** The digit character for `d`. */
  function DigitChar(d: nat): (c: char)
    requires d < 10
    ensures '0' <= c <= '9' && c as int - '0' as int == d
  {
    ('0' as int + d) as char
  }

  /** The decimal text of `n`, as `String(n)` writes an array index. */
  function DecimalString(n: nat): (r: string)
    ensures |r| >= 1
    ensures forall i :: 0 <= i < |r| ==> '0' <= r[i] <= '9'
    ensures r[0] == '0' ==> n == 0
  {
    if n < 10 then [DigitChar(n)] else DecimalString(n / 10) + [DigitChar(n % 10)]
  }

  /** The decimal value of a string of digits. */
  function DecimalValue(s: string): nat
    requires forall i :: 0 <= i < |s| ==> '0' <= s[i] <= '9'
  {
    if s == [] then 0 else 10 * DecimalValue(s[..|s| - 1]) + (s[|s| - 1] as int - '0' as int)
  }

  /** Reading back the decimal text of `n` gives `n`, so distinct indices get distinct keys. */
  lemma {:induction false} DecimalRoundTrip(n: nat)
    ensures DecimalValue(DecimalString(n)) == n
  {
    if n >= 10 {
      var q, d := n / 10, n % 10;
      var r := DecimalString(n);
      assert r == DecimalString(q) + [DigitChar(d)];
      assert r[..|r| - 1] == DecimalString(q);
      DecimalRoundTrip(q);
      assert n == 10 * q + d;
    }
  }

  /** The indices below `n` have pairwise distinct decimal texts. */
  lemma IndexKeysDistinct(n: nat)
    ensures forall i, j :: 0 <= i < j < n ==> DecimalString(i) != DecimalString(j)
  {
    forall i, j | 0 <= i < j < n ensures DecimalString(i) != DecimalString(j) {
      DecimalRoundTrip(i);
      DecimalRoundTrip(j);
    }
  }
}
