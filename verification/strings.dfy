/**
 ASCII upper-casing, standing in for the string library's upper-case
 conversion that the logger applies to a level name before looking it up.
 Only the ASCII letters matter for the level-name table, so every other
 character is left as it is.
 */
module Strings {

  predicate IsLower(c: char) { 'a' <= c <= 'z' }

  predicate IsUpper(c: char) { 'A' <= c <= 'Z' }

  /** No character of `s` is a lower-case ASCII letter. */
  predicate NoLower(s: string)
  {
    forall i :: 0 <= i < |s| ==> !IsLower(s[i])
  }

  /** Upper-cases one ASCII letter; every other character is unchanged. */
  function UpperChar(c: char): (r: char)
    ensures !IsLower(r)
    ensures IsLower(c) ==> IsUpper(r) && r as int + 32 == c as int
    ensures !IsLower(c) ==> r == c
  {
    if IsLower(c) then (c as int - 32) as char else c
  }

  /** Upper-cases every character of `s`, keeping its length and order. */
  function ToUpper(s: string): (r: string)
    ensures |r| == |s|
    ensures forall i :: 0 <= i < |s| ==> r[i] == UpperChar(s[i])
    ensures NoLower(r)
  {
    if s == [] then [] else [UpperChar(s[0])] + ToUpper(s[1..])
  }

  /**
   `s` spells `key` in some mixture of cases: character by character, it is
   the key's own character or the lower-case form of an upper-case key letter.
   */
  predicate IsCasingOf(s: string, key: string)
  {
    |s| == |key| &&
    (s == [] ||
     ((s[0] == key[0] || (IsUpper(key[0]) && s[0] as int == key[0] as int + 32)) &&
      IsCasingOf(s[1..], key[1..])))
  }

  /** Upper-casing is idempotent. */
  lemma ToUpperIdempotent(s: string)
    ensures ToUpper(ToUpper(s)) == ToUpper(s)
  {
  }

  /**
   For a key with no lower-case letters, upper-casing `s` yields the key
   exactly when `s` is some casing of it: a lookup by upper-cased name
   ignores case, and nothing else reaches the key.
   */
  lemma {:induction false} CasingIffUpper(s: string, key: string)
    requires NoLower(key)
    ensures IsCasingOf(s, key) <==> ToUpper(s) == key
  {
    if s != [] && key != [] && |s| == |key| {
      assert NoLower(key[1..]) by {
        forall i | 0 <= i < |key[1..]| ensures !IsLower(key[1..][i]) {
          assert key[1..][i] == key[i + 1];
        }
      }
      CasingIffUpper(s[1..], key[1..]);
      var head := s[0] == key[0] || (IsUpper(key[0]) && s[0] as int == key[0] as int + 32);
      assert head <==> UpperChar(s[0]) == key[0];
      assert ToUpper(s) == [UpperChar(s[0])] + ToUpper(s[1..]);
      assert key == [key[0]] + key[1..];
      if ToUpper(s) == key {
        assert ToUpper(s)[0] == key[0];
        assert ToUpper(s)[1..] == key[1..];
      }
    }
  }
}
