/** The few JavaScript built-in behaviours the profile service relies on:
    `String.prototype.trim`, the `||` default on an optional value,
    `Array.prototype.map`, and the decimal rendering of a number inside a
    template literal. */
module JsBuiltins {
  import opened Wrappers

  /** The code points `trim` strips: ECMAScript's WhiteSpace (tab, vertical
      tab, form feed, space, no-break space, byte order mark and the Unicode
      space separators) and its LineTerminators (LF, CR, U+2028, U+2029). */
  predicate IsJsWhitespace(c: char) {
    || c == '\t' || c == '\n' || c == '\U{000B}' || c == '\U{000C}' || c == '\r'
    || c == ' ' || c == '\U{00A0}' || c == '\U{1680}'
    || ('\U{2000}' <= c <= '\U{200A}')
    || c == '\U{2028}' || c == '\U{2029}' || c == '\U{202F}' || c == '\U{205F}'
    || c == '\U{3000}' || c == '\U{FEFF}'
  }

  /** Number of whitespace characters at the start of `s`. */
  function LeadingWhitespace(s: string): (n: nat)
    ensures n <= |s|
    ensures forall k :: 0 <= k < n ==> IsJsWhitespace(s[k])
    ensures n < |s| ==> !IsJsWhitespace(s[n])
  {
    if |s| > 0 && IsJsWhitespace(s[0]) then 1 + LeadingWhitespace(s[1..]) else 0
  }

  /** Number of whitespace characters at the end of `s`. */
  function TrailingWhitespace(s: string): (n: nat)
    ensures n <= |s|
    ensures forall k :: |s| - n <= k < |s| ==> IsJsWhitespace(s[k])
    ensures n < |s| ==> !IsJsWhitespace(s[|s| - 1 - n])
  {
    if |s| > 0 && IsJsWhitespace(s[|s| - 1]) then 1 + TrailingWhitespace(s[..|s| - 1]) else 0
  }

  /** `s.trim()` */
  function Trim(s: string): string {
    var t := s[LeadingWhitespace(s)..];
    t[..|t| - TrailingWhitespace(t)]
  }

  /** Reference definition of trimming: `r` is the slice `s[i..j]` left over
      when whitespace-only margins are cut off, and `r` itself neither starts
      nor ends with whitespace. */
  ghost predicate IsTrimOf(s: string, r: string) {
    exists i, j ::
      && 0 <= i <= j <= |s|
      && r == s[i..j]
      && (forall k :: 0 <= k < i ==> IsJsWhitespace(s[k]))
      && (forall k :: j <= k < |s| ==> IsJsWhitespace(s[k]))
      && (r == [] || (!IsJsWhitespace(r[0]) && !IsJsWhitespace(r[|r| - 1])))
  }

  /** Where the slice that `Trim` keeps starts and ends in `s`. */
  lemma TrimBounds(s: string) returns (i: nat, j: nat)
    ensures i <= j <= |s| && Trim(s) == s[i..j]
    ensures forall k :: 0 <= k < i ==> IsJsWhitespace(s[k])
    ensures forall k :: j <= k < |s| ==> IsJsWhitespace(s[k])
    ensures i < j ==> !IsJsWhitespace(s[i]) && !IsJsWhitespace(s[j - 1])
    ensures i == j ==> i == |s|
  {
    i := LeadingWhitespace(s);
    var t := s[i..];
    j := i + |t| - TrailingWhitespace(t);
    forall k | j <= k < |s| ensures IsJsWhitespace(s[k]) {
      assert s[k] == t[k - i];
    }
    if i < j {
      assert s[j - 1] == t[|t| - 1 - TrailingWhitespace(t)];
    }
  }

  /** `Trim` computes a trimming in the sense of the reference definition. */
  lemma TrimIsTrimOf(s: string)
    ensures IsTrimOf(s, Trim(s))
  {
    var i, j := TrimBounds(s);
  }

  /** A string has only one trimming. */
  lemma TrimOfUnique(s: string, r: string)
    requires IsTrimOf(s, r)
    ensures r == Trim(s)
  {
    var i0, j0 := TrimBounds(s);
    var i, j :| && 0 <= i <= j <= |s|
                && r == s[i..j]
                && (forall k :: 0 <= k < i ==> IsJsWhitespace(s[k]))
                && (forall k :: j <= k < |s| ==> IsJsWhitespace(s[k]))
                && (r == [] || (!IsJsWhitespace(r[0]) && !IsJsWhitespace(r[|r| - 1])));
    if i == j {
      // every character of s is whitespace, so nothing survives Trim
      assert i0 == |s|;
    } else {
      assert !IsJsWhitespace(s[i]) && !IsJsWhitespace(s[j - 1]);
      assert i == i0;
      assert j == j0;
    }
  }

  /** `Trim` computes exactly the trimming of the reference definition, and
      no other string is a trimming of `s`. */
  lemma TrimCharacterization(s: string, r: string)
    ensures IsTrimOf(s, r) <==> r == Trim(s)
  {
    TrimIsTrimOf(s);
    if IsTrimOf(s, r) {
      TrimOfUnique(s, r);
    }
  }

  /** A non-whitespace character of `s` survives trimming, so the result is
      not empty and still contains it. */
  lemma TrimKeepsNonWhitespace(s: string, k: nat)
    requires k < |s| && !IsJsWhitespace(s[k])
    ensures Trim(s) != [] && s[k] in Trim(s)
  {
    var i, j := TrimBounds(s);
    assert Trim(s)[k - i] == s[k];
  }

  /** JavaScript truthiness of a string that may be `undefined`. */
  predicate Truthy(x: Option<string>) {
    x.Some? && x.value != ""
  }

  /** `x || d` for a string that may be `undefined`: `d` when `x` is missing
      or empty. */
  function OrElse(x: Option<string>, d: string): string {
    if Truthy(x) then x.value else d
  }

  /** `x || undefined`: an empty string becomes `undefined`. */
  function OrUndefined(x: Option<string>): Option<string> {
    if Truthy(x) then x else None
  }

  /** `xs || []` for an array that may be `undefined` (an empty array is
      truthy, so only a missing one is replaced). */
  function OrEmpty<T>(xs: Option<seq<T>>): seq<T> {
    if xs.Some? then xs.value else []
  }

  /** `xs.map(f)`: one result per element, in the same order. */
  function Map<A, B>(f: A -> B, xs: seq<A>): (r: seq<B>)
    ensures |r| == |xs|
    ensures forall i :: 0 <= i < |xs| ==> r[i] == f(xs[i])
  {
    if xs == [] then [] else [f(xs[0])] + Map(f, xs[1..])
  }

  /** Two maps in a row agree with a single map `h` when `h` agrees with
      `f` then `g` on every element. */
  lemma MapAfterMap<A, B, C>(g: B -> C, f: A -> B, h: A -> C, xs: seq<A>)
    requires forall i :: 0 <= i < |xs| ==> g(f(xs[i])) == h(xs[i])
    ensures Map(g, Map(f, xs)) == Map(h, xs)
  {
  }

  function DigitChar(d: nat): char
    requires d < 10
  {
    ['0', '1', '2', '3', '4', '5', '6', '7', '8', '9'][d]
  }

  /** Decimal rendering of a number inside a template literal (`${n}`). */
  function NatToString(n: nat): (r: string)
    ensures |r| > 0 && forall k :: 0 <= k < |r| ==> '0' <= r[k] <= '9'
  {
    if n < 10 then [DigitChar(n)] else NatToString(n / 10) + [DigitChar(n % 10)]
  }

  /** Value of a string of decimal digits. */
  function DecimalValue(s: string): nat
    requires forall k :: 0 <= k < |s| ==> '0' <= s[k] <= '9'
  {
    if s == [] then 0
    else 10 * DecimalValue(s[..|s| - 1]) + (s[|s| - 1] as int - '0' as int)
  }

  /** The rendering is the decimal numeral of `n`: reading it back gives `n`,
      and it has no leading zero. */
  lemma {:induction false} NatToStringRoundTrip(n: nat)
    ensures DecimalValue(NatToString(n)) == n
    ensures NatToString(n)[0] == '0' ==> n == 0
  {
    if n >= 10 {
      NatToStringRoundTrip(n / 10);
      var r := NatToString(n);
      assert r[..|r| - 1] == NatToString(n / 10);
    }
  }
}
