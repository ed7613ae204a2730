/** The lexical rules every identifier and hash must match. */
module Syntax {
  import opened Texts

  predicate IdChar(c: char) { IsAlnum(c) || c in "._:-" }

  predicate IsId(s: string) {
    1 <= |s| <= 128 && IsAlnum(s[0]) && forall i :: 1 <= i < |s| ==> IdChar(s[i])
  }

  predicate IsResourceId(s: string) {
    1 <= |s| <= 256 && (IsAlnum(s[0]) || s[0] == '/') && forall i :: 1 <= i < |s| ==> IsAlnum(s[i]) || s[i] in "._:/@+-"
  }

  predicate IsName(s: string) {
    1 <= |s| <= 64 && IsLower(s[0]) && forall i :: 1 <= i < |s| ==> IsLower(s[i]) || IsDigit(s[i]) || s[i] == '_'
  }

  predicate IsType(s: string) {
    1 <= |s| <= 64 && IsUpper(s[0]) && forall i :: 1 <= i < |s| ==> IsAlnum(s[i])
  }

  predicate IsPolicyId(s: string) {
    1 <= |s| <= 64 && forall i :: 0 <= i < |s| ==> IsLower(s[i]) || IsDigit(s[i]) || (i > 0 && s[i] == '-')
  }

  const HASH_PREFIX := "sha256:"

  predicate IsHash(s: string) {
    |s| == 71 && s[..7] == HASH_PREFIX && forall i :: 7 <= i < 71 ==> IsLowerHex(s[i])
  }
}
