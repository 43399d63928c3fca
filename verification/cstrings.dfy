/**
 * C string comparison as the governor tools use it: `strncmp` over a buffer
 * that was zero-filled before `read` stored the file's bytes in it.
 */
module CStrings {

  /** The NUL character that terminates a C string. */
  const Nul: char := '\0'

  /**
   * The character at position `i` of a zero-initialised buffer holding `s`:
   * past the stored bytes the buffer reads as NUL.
   */
  function CharAt(s: seq<char>, i: nat): char
  {
    if i < |s| then s[i] else Nul
  }

  /**
   * `strncmp(a + i, b + i, n - i) == 0`: compare position by position, up to
   * position `n`, stopping early (equal) at a NUL that both strings share.
   */
  function StrnEqualFrom(a: seq<char>, b: seq<char>, i: nat, n: nat): bool
    decreases n - i
  {
    i >= n ||
    (CharAt(a, i) == CharAt(b, i) && (CharAt(a, i) == Nul || StrnEqualFrom(a, b, i + 1, n)))
  }

  /** `strncmp(a, b, n) == 0`. */
  function StrnEqual(a: seq<char>, b: seq<char>, n: nat): bool
  {
    StrnEqualFrom(a, b, 0, n)
  }

  /**
   * When `b` holds no NUL in the compared range, the early stop never
   * triggers, so `strncmp` compares every position in [i, n).
   */
  lemma {:induction false} StrnEqualFromNoNul(a: seq<char>, b: seq<char>, i: nat, n: nat)
    requires i <= n <= |b|
    requires forall k :: i <= k < n ==> b[k] != Nul
    ensures StrnEqualFrom(a, b, i, n) <==> (forall k :: i <= k < n ==> CharAt(a, k) == b[k])
    decreases n - i
  {
    if i < n {
      StrnEqualFromNoNul(a, b, i + 1, n);
    }
  }

  /**
   * Comparing the first |b| characters against a NUL-free literal `b` is a
   * prefix test: the buffer must hold at least |b| bytes and start with `b`.
   * A shorter buffer fails, because its zero padding meets a non-NUL
   * character of `b`.
   */
  lemma StrnEqualIsPrefix(a: seq<char>, b: seq<char>)
    requires forall k :: 0 <= k < |b| ==> b[k] != Nul
    ensures StrnEqual(a, b, |b|) <==> (|b| <= |a| && a[..|b|] == b)
  {
    StrnEqualFromNoNul(a, b, 0, |b|);
    if StrnEqual(a, b, |b|) && |b| > 0 {
      assert CharAt(a, |b| - 1) == b[|b| - 1];
      assert |b| <= |a|;
      assert forall k :: 0 <= k < |b| ==> a[..|b|][k] == CharAt(a, k);
    }
    if |b| <= |a| && a[..|b|] == b {
      assert forall k :: 0 <= k < |b| ==> CharAt(a, k) == a[..|b|][k];
    }
  }
}
