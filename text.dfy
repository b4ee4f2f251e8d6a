/**
 * The string helpers the handlers apply to user input: Go's
 * `strings.TrimSpace`, `strings.ToUpper` / `strings.ToLower` (ASCII letters
 * only), `strings.HasPrefix`, and PostgreSQL's `ILIKE '%search%'` as a
 * case-insensitive substring test.
 */
module Text {

  /** White space as Go's `unicode.IsSpace` defines it. */
  predicate IsSpace(c: char) {
    c == ' ' || c == '\t' || c == '\n' || c == '\U{0B}' || c == '\U{0C}' || c == '\r'
    || c == '\U{85}' || c == '\U{A0}' || c == '\U{1680}'
    || ('\U{2000}' <= c <= '\U{200A}')
    || c == '\U{2028}' || c == '\U{2029}' || c == '\U{202F}' || c == '\U{205F}' || c == '\U{3000}'
  }

  predicate IsLowerAscii(c: char) { 'a' <= c <= 'z' }
  predicate IsUpperAscii(c: char) { 'A' <= c <= 'Z' }

  function UpperChar(c: char): char {
    if IsLowerAscii(c) then (c as int - 32) as char else c
  }

  function LowerChar(c: char): char {
    if IsUpperAscii(c) then (c as int + 32) as char else c
  }

  function ToUpper(s: string): string {
    seq(|s|, i requires 0 <= i < |s| => UpperChar(s[i]))
  }

  function ToLower(s: string): string {
    seq(|s|, i requires 0 <= i < |s| => LowerChar(s[i]))
  }

  /** `s` has no white space at either end. */
  predicate Trimmed(s: string) {
    s == [] || (!IsSpace(s[0]) && !IsSpace(s[|s| - 1]))
  }

  /** The number of white-space characters `s` starts with. */
  function LeadingSpace(s: string): (k: nat)
    ensures k <= |s|
    ensures forall i :: 0 <= i < k ==> IsSpace(s[i])
    ensures k == |s| || !IsSpace(s[k])
  {
    if s != [] && IsSpace(s[0]) then 1 + LeadingSpace(s[1..]) else 0
  }

  /** The number of white-space characters `s` ends with. */
  function TrailingSpace(s: string): (k: nat)
    ensures k <= |s|
    ensures forall i :: |s| - k <= i < |s| ==> IsSpace(s[i])
    ensures k == |s| || !IsSpace(s[|s| - 1 - k])
  {
    if s != [] && IsSpace(s[|s| - 1]) then 1 + TrailingSpace(s[..|s| - 1]) else 0
  }

  /** Go's `strings.TrimSpace`: the longest slice of `s` with no white space at either end. */
  function TrimSpace(s: string): (r: string)
    ensures Trimmed(r)
    ensures exists i, j ::
              0 <= i <= j <= |s| && r == s[i..j]
              && (forall k :: 0 <= k < i ==> IsSpace(s[k])) && (forall k :: j <= k < |s| ==> IsSpace(s[k]))
  {
    var i := LeadingSpace(s);
    var rest := s[i..];
    var j := i + |rest| - TrailingSpace(rest);
    assert forall k :: j <= k < |s| ==> s[k] == rest[k - i];
    assert rest[..|rest| - TrailingSpace(rest)] == s[i..j];
    s[i..j]
  }

  /** The normalisation every tracking number and expedition code goes through on intake. */
  function Normalize(s: string): string {
    ToUpper(TrimSpace(s))
  }

  predicate HasPrefix(s: string, prefix: string) {
    |prefix| <= |s| && s[..|prefix|] == prefix
  }

  /** PostgreSQL `s ILIKE '%sub%'` for a pattern without wildcards, with ASCII case folding. */
  predicate ContainsFold(s: string, sub: string) {
    exists i | 0 <= i <= |s| :: OccursAt(ToLower(s), ToLower(sub), i)
  }

  predicate OccursAt(hay: string, needle: string, i: int) {
    0 <= i <= |hay| - |needle| && hay[i..i + |needle|] == needle
  }

  lemma UpperCharKeepsSpace(c: char)
    ensures IsSpace(UpperChar(c)) <==> IsSpace(c)
  {}

  /** A string without white space at its ends is left alone by `TrimSpace`. */
  lemma {:induction false} TrimSpaceOfTrimmed(s: string)
    requires Trimmed(s)
    ensures TrimSpace(s) == s
  {
    if s != [] {
      assert LeadingSpace(s) == 0;
      assert TrailingSpace(s) == 0;
    }
  }

  /** Upper-casing keeps a string's ends free of white space. */
  lemma ToUpperKeepsTrimmed(s: string)
    requires Trimmed(s)
    ensures Trimmed(ToUpper(s))
  {
    if s != [] {
      UpperCharKeepsSpace(s[0]);
      UpperCharKeepsSpace(s[|s| - 1]);
    }
  }

  /** A normalised value contains no lower-case ASCII letter and no white space at its ends. */
  lemma NormalizeShape(s: string)
    ensures Trimmed(Normalize(s))
    ensures forall i :: 0 <= i < |Normalize(s)| ==> !IsLowerAscii(Normalize(s)[i])
  {
    ToUpperKeepsTrimmed(TrimSpace(s));
  }

  lemma ToUpperIdempotent(s: string)
    ensures ToUpper(ToUpper(s)) == ToUpper(s)
  {
    var u := ToUpper(s);
    forall i | 0 <= i < |s| ensures ToUpper(u)[i] == u[i] {
      assert u[i] == UpperChar(s[i]);
    }
  }

  /** Normalising twice is normalising once, so a value typed again normalises to the same key. */
  lemma NormalizeIdempotent(s: string)
    ensures Normalize(Normalize(s)) == Normalize(s)
  {
    var u := ToUpper(TrimSpace(s));
    ToUpperKeepsTrimmed(TrimSpace(s));
    TrimSpaceOfTrimmed(u);
    ToUpperIdempotent(TrimSpace(s));
    calc {
      Normalize(u);
      ToUpper(TrimSpace(u));
      ToUpper(u);
      u;
    }
  }

  /** A prefix holding a lower-case ASCII letter never starts a normalised value. */
  lemma LowerCasePrefixNeverMatches(raw: string, prefix: string, k: nat)
    requires k < |prefix| && IsLowerAscii(prefix[k])
    ensures !HasPrefix(Normalize(raw), prefix)
  {
    var n := Normalize(raw);
    NormalizeShape(raw);
    if |prefix| <= |n| {
      assert n[..|prefix|][k] == n[k];
      assert n[..|prefix|][k] != prefix[k];
    }
  }
}
