/*
 * NUL-terminated byte strings as the C drivers see them.
 */
module CString {

  /** `s` holds a NUL terminator. */
  predicate Terminated(s: seq<bv8>) {
    exists i :: 0 <= i < |s| && s[i] == 0
  }

  /** The index of the first NUL of `s`. */
  function NulIndex(s: seq<bv8>): (n: nat)
    requires Terminated(s)
    ensures n < |s| && s[n] == 0
    ensures forall i :: 0 <= i < n ==> s[i] != 0
  {
    if s[0] == 0 then 0
    else
      assert Terminated(s[1..]) by {
        var i :| 0 <= i < |s| && s[i] == 0;
        assert s[1..][i - 1] == 0;
      }
      1 + NulIndex(s[1..])
  }
}
