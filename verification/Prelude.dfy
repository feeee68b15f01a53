/** Shared value types. */
module Prelude {

  datatype Option<+T> = None | Some(value: T)

  function Min(a: int, b: int): int {
    if a <= b then a else b
  }

  /** The characters removed by Python's `str.strip()`. */
  predicate IsSpace(c: char) {
    var n := c as int;
    || 0x9 <= n <= 0xD || 0x1C <= n <= 0x20 || n == 0x85 || n == 0xA0 || n == 0x1680
    || 0x2000 <= n <= 0x200A || n == 0x2028 || n == 0x2029 || n == 0x202F || n == 0x205F || n == 0x3000
  }

  predicate Blank(s: string) {
    forall i :: 0 <= i < |s| ==> IsSpace(s[i])
  }

  predicate Distinct<T(==)>(s: seq<T>) {
    forall i, j :: 0 <= i < j < |s| ==> s[i] != s[j]
  }

  predicate Alphanumeric(c: char) {
    'A' <= c <= 'Z' || 'a' <= c <= 'z' || '0' <= c <= '9'
  }

  /** `_OWNER_PATTERN`, the pattern every `OwnerId` field demands. */
  predicate ValidOwner(owner: string) {
    && 1 <= |owner| <= 128 && Alphanumeric(owner[0])
    && forall i :: 0 <= i < |owner| ==> Alphanumeric(owner[i]) || owner[i] in "._:@|+-"
  }

  /** Equal to its own `strip()`, and not empty. */
  predicate Trimmed(s: string) {
    s != "" && !IsSpace(s[0]) && !IsSpace(s[|s| - 1])
  }

  /** Python's `str.strip()`, in two passes. */
  function StripLeft(s: string): string {
    if s != "" && IsSpace(s[0]) then StripLeft(s[1..]) else s
  }

  function StripRight(s: string): string {
    if s != "" && IsSpace(s[|s| - 1]) then StripRight(s[..|s| - 1]) else s
  }

  function Strip(s: string): string {
    StripRight(StripLeft(s))
  }

  lemma {:induction false} StripShortens(s: string)
    ensures |StripLeft(s)| <= |s| && |StripRight(s)| <= |s|
    decreases |s|
  {
    if s != "" {
      StripShortens(s[1..]);
      StripShortens(s[..|s| - 1]);
    }
  }

  /** What stripping leaves alone begins and ends in other characters than white space. */
  lemma {:induction false} TrimmedIff(s: string)
    ensures Trimmed(s) <==> s != "" && Strip(s) == s
  {
    StripShortens(StripLeft(s));
    if s != "" && IsSpace(s[0]) {
      StripShortens(s[1..]);
    } else if s != "" && IsSpace(s[|s| - 1]) {
      StripShortens(s[..|s| - 1]);
    } else if s != "" {
      assert StripLeft(s) == s;
    }
  }
}
