/**
 * Small shared definitions: a result type for error paths, and the view of a
 * C++ `std::string` through its `c_str()` pointer.
 */
module Basics {

  datatype Result<+T, +E> = Ok(value: T) | Err(error: E)

  function Min(a: int, b: int): (m: int)
    ensures m <= a && m <= b && (m == a || m == b)
  {
    if a <= b then a else b
  }

  /**
   * The text a `const char*` designates: the characters of `s` up to (not
   * including) its first NUL. Building a `std::string` from `s.c_str()`
   * keeps exactly this prefix.
   */
  function CStr(s: string): (r: string)
    ensures |r| <= |s| && r == s[..|r|]
    ensures '\0' !in r
    ensures |r| < |s| ==> s[|r|] == '\0'
  {
    if s == [] || s[0] == '\0' then [] else [s[0]] + CStr(s[1..])
  }

  /** A string without NUL passes through `c_str()` unchanged. */
  lemma {:induction false} CStrWithoutNul(s: string)
    requires '\0' !in s
    ensures CStr(s) == s
  {
    if s != [] {
      assert s[0] in s;
      CStrWithoutNul(s[1..]);
    }
  }
}
