/**
  The attribute-name rewrite of `getNode`: every ASCII capital letter of a
  camel-case attribute name becomes a hyphen followed by its lower-case form,
  so `strokeWidth` is set as `stroke-width`.
*/
module AttrNames {

  predicate IsUpper(c: char) {
    'A' <= c <= 'Z'
  }

  predicate IsLower(c: char) {
    'a' <= c <= 'z'
  }

  /** `toLowerCase` on a capital letter. */
  function ToLower(c: char): (r: char)
    requires IsUpper(c)
    ensures IsLower(r)
  {
    (c as int + 32) as char
  }

  /** Capitalises a lower-case letter, undoing `ToLower`. */
  function ToUpper(c: char): (r: char)
    requires IsLower(c)
    ensures IsUpper(r) && ToLower(r) == c
  {
    (c as int - 32) as char
  }

  /** The `replace(/[A-Z]/g, m => '-' + m.toLowerCase())` rewrite, character by character. */
  function Kebab(s: string): (r: string)
    ensures forall k :: 0 <= k < |r| ==> !IsUpper(r[k])
  {
    if s == [] then []
    else if IsUpper(s[0]) then ['-', ToLower(s[0])] + Kebab(s[1..])
    else [s[0]] + Kebab(s[1..])
  }

  /** Number of capitals in `s`. */
  function Uppers(s: string): nat {
    if s == [] then 0 else (if IsUpper(s[0]) then 1 else 0) + Uppers(s[1..])
  }

  /** Each capital adds exactly one character, the hyphen. */
  lemma {:induction false} KebabLength(s: string)
    ensures |Kebab(s)| == |s| + Uppers(s)
  {
    if s != [] {
      KebabLength(s[1..]);
    }
  }

  /** A name without capitals is left as it is. */
  lemma {:induction false} KebabNoUppers(s: string)
    requires forall k :: 0 <= k < |s| ==> !IsUpper(s[k])
    ensures Kebab(s) == s
  {
    if s != [] {
      KebabNoUppers(s[1..]);
      assert s == [s[0]] + s[1..];
    }
  }

  /** The rewrite is idempotent: its output has no capitals left to rewrite. */
  lemma KebabIdempotent(s: string)
    ensures Kebab(Kebab(s)) == Kebab(s)
  {
    KebabNoUppers(Kebab(s));
  }

  /** Reads a kebab-case name back into camel case: a hyphen before a lower-case letter capitalises it. */
  function Camel(t: string): string {
    if t == [] then []
    else if |t| >= 2 && t[0] == '-' && IsLower(t[1]) then [ToUpper(t[1])] + Camel(t[2..])
    else [t[0]] + Camel(t[1..])
  }

  /** The rewrite loses nothing for names without hyphens: reading it back gives the name. */
  lemma {:induction false} CamelKebab(s: string)
    requires forall k :: 0 <= k < |s| ==> s[k] != '-'
    ensures Camel(Kebab(s)) == s
  {
    if s != [] {
      CamelKebab(s[1..]);
      var rest := Kebab(s[1..]);
      if IsUpper(s[0]) {
        var t := ['-', ToLower(s[0])] + rest;
        assert t[2..] == rest;
        assert ToUpper(ToLower(s[0])) == s[0];
      } else {
        var t := [s[0]] + rest;
        assert t[1..] == rest;
        assert s[0] != '-';
      }
      assert s == [s[0]] + s[1..];
    }
  }
}
