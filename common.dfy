/** Small pieces shared by the three components: optional values, opaque
    protocol parameters, ASCII case mapping of room codes, and the JavaScript
    `Array.from(set)` / `Array.from(map.entries())` enumerations. */
module Common {

  datatype Option<+T> = None | Some(value: T)

  /** A JSON value the backend passes through without looking inside it
      (DTLS parameters, RTP parameters, RTP capabilities). */
  datatype Blob = Blob(token: nat)

  /** JavaScript truthiness of an optional string field: both an absent field
      and the empty string are falsy. */
  predicate Present(s: Option<string>) {
    s.Some? && s.value != ""
  }

  predicate IsLowerLetter(c: char) {
    'a' <= c <= 'z'
  }

  predicate IsUpperLetter(c: char) {
    'A' <= c <= 'Z'
  }

  /** `String.prototype.toUpperCase` on one ASCII character. */
  function UpperChar(c: char): (u: char)
    ensures !IsLowerLetter(u)
    ensures IsLowerLetter(c) ==> IsUpperLetter(u) && u as int == c as int - 32
    ensures !IsLowerLetter(c) ==> u == c
  {
    if IsLowerLetter(c) then (c as int - 32) as char else c
  }

  /** `String.prototype.toLowerCase` on one ASCII character. */
  function LowerChar(c: char): (l: char)
    ensures !IsUpperLetter(l)
    ensures IsUpperLetter(c) ==> IsLowerLetter(l) && l as int == c as int + 32
    ensures !IsUpperLetter(c) ==> l == c
  {
    if IsUpperLetter(c) then (c as int + 32) as char else c
  }

  /** No lower-case letter occurs in `s`. */
  predicate IsUpperCase(s: string) {
    forall i :: 0 <= i < |s| ==> !IsLowerLetter(s[i])
  }

  /** `toUpperCase` on a string: character by character, length kept. */
  function Upper(s: string): (r: string)
    ensures |r| == |s|
    ensures forall i :: 0 <= i < |s| ==> r[i] == UpperChar(s[i])
    ensures IsUpperCase(r)
  {
    if s == [] then [] else [UpperChar(s[0])] + Upper(s[1..])
  }

  /** `toLowerCase` on a string. */
  function Lower(s: string): (r: string)
    ensures |r| == |s|
    ensures forall i :: 0 <= i < |s| ==> r[i] == LowerChar(s[i])
  {
    if s == [] then [] else [LowerChar(s[0])] + Lower(s[1..])
  }

  /** Upper-casing a lower-cased code gives the same key as upper-casing the
      code itself: the two spellings reach the same room. */
  lemma {:induction false} UpperOfLower(s: string)
    ensures Upper(Lower(s)) == Upper(s)
  {
    if s != [] {
      UpperOfLower(s[1..]);
      assert Lower(s) == [LowerChar(s[0])] + Lower(s[1..]);
      assert UpperChar(LowerChar(s[0])) == UpperChar(s[0]);
    }
  }

  /** Normalising twice is normalising once. */
  lemma {:induction false} UpperIdempotent(s: string)
    ensures Upper(Upper(s)) == Upper(s)
  {
    if s != [] {
      UpperIdempotent(s[1..]);
      assert Upper(s) == [UpperChar(s[0])] + Upper(s[1..]);
    }
  }

  /** A string without lower-case letters is its own normal form. */
  lemma {:induction false} UpperOfUpperCase(s: string)
    requires IsUpperCase(s)
    ensures Upper(s) == s
  {
    if s != [] {
      UpperOfUpperCase(s[1..]);
    }
  }

  function Min(a: int, b: int): int {
    if a <= b then a else b
  }

  /** `Array.from(s)` for a JavaScript Set: every element exactly once.
      The insertion order of the Set is not modelled. */
  method Enumerate<T>(s: set<T>) returns (xs: seq<T>)
    ensures |xs| == |s|
    ensures forall x :: x in xs <==> x in s
    ensures forall i, j :: 0 <= i < j < |xs| ==> xs[i] != xs[j]
  {
    xs := [];
    var rest := s;
    while rest != {}
      invariant rest <= s
      invariant forall x :: x in xs <==> x in s - rest
      invariant forall i, j :: 0 <= i < j < |xs| ==> xs[i] != xs[j]
      invariant |xs| + |rest| == |s|
      decreases rest
    {
      var x :| x in rest;
      xs := xs + [x];
      rest := rest - {x};
    }
  }

  /** `Array.from(m.entries())` for a JavaScript Map: every key exactly once,
      paired with its value. The insertion order of the Map is not modelled. */
  method Entries<K, V>(m: map<K, V>) returns (es: seq<(K, V)>)
    ensures |es| == |m|
    ensures forall k, v :: (k, v) in es <==> k in m && m[k] == v
    ensures forall i, j :: 0 <= i < j < |es| ==> es[i].0 != es[j].0
  {
    es := [];
    var rest := m.Keys;
    while rest != {}
      invariant rest <= m.Keys
      invariant forall k, v :: (k, v) in es <==> k in m && k !in rest && m[k] == v
      invariant forall i :: 0 <= i < |es| ==> es[i].0 in m && es[i].0 !in rest
      invariant forall i, j :: 0 <= i < j < |es| ==> es[i].0 != es[j].0
      invariant |es| + |rest| == |m|
      decreases rest
    {
      var k :| k in rest;
      es := es + [(k, m[k])];
      rest := rest - {k};
    }
  }
}
