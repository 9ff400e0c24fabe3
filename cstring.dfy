/**
 * NUL-terminated strings in caller-owned buffers.
 *
 * A buffer is a sequence of integer code units (narrow `char` and wide
 * `wchar_t` elements alike); the string that starts at index `i` is every
 * element from `i` up to, not including, the first 0 at or after `i`.
 */
module CString {

  datatype Option<T> = None | Some(value: T)

  /** A C pointer: a position inside a buffer. */
  datatype Ptr = Ptr(buf: array<int>, at: nat)

  function Min(x: int, y: int): int { if x <= y then x else y }

  /** The buffer holds a terminator at or after index `i`. */
  ghost predicate Terminated(a: seq<int>, i: nat) {
    exists j :: i <= j < |a| && a[j] == 0
  }

  /** No element of `s` is a terminator. */
  ghost predicate NoNul(s: seq<int>) {
    forall k :: 0 <= k < |s| ==> s[k] != 0
  }

  /** strlen: the distance from `i` to the first terminator at or after `i`. */
  function Len(a: seq<int>, i: nat): (n: nat)
    requires Terminated(a, i)
    ensures i + n < |a| && a[i + n] == 0
    ensures forall k :: i <= k < i + n ==> a[k] != 0
    decreases |a| - i
  {
    if a[i] == 0 then 0 else 1 + Len(a, i + 1)
  }

  /** The string that starts at index `i`. */
  function Str(a: seq<int>, i: nat): seq<int>
    requires Terminated(a, i)
  {
    a[i..i + Len(a, i)]
  }

  /** The string an optional buffer holds, NULL reading as no value. */
  ghost function Contents(p: Option<array<int>>): Option<seq<int>>
    requires p.Some? ==> Terminated(p.value[..], 0)
    reads if p.Some? then {p.value} else {}
  {
    if p.Some? then Some(Str(p.value[..], 0)) else None
  }

  function OrEmpty(s: Option<seq<int>>): seq<int> {
    if s.Some? then s.value else []
  }

  /** A string holds no terminator. */
  lemma {:induction false} StrNoNul(a: seq<int>, i: nat)
    requires Terminated(a, i)
    ensures NoNul(Str(a, i))
  {
    var s := Str(a, i);
    assert forall k :: 0 <= k < |s| ==> s[k] == a[i + k];
  }

  /** A terminator at `i + n` with no terminator before it fixes the length. */
  lemma {:induction false} LenIs(a: seq<int>, i: nat, n: nat)
    requires i + n < |a| && a[i + n] == 0
    requires forall k :: i <= k < i + n ==> a[k] != 0
    ensures Terminated(a, i) && Len(a, i) == n && Str(a, i) == a[i..i + n]
  {
    assert a[i + n] == 0;
  }

  /** A buffer that holds `x` and then a terminator holds the string `x`. */
  lemma {:induction false} StrIs(a: seq<int>, x: seq<int>)
    requires NoNul(x) && |x| < |a| && a[|x|] == 0
    requires forall k :: 0 <= k < |x| ==> a[k] == x[k]
    ensures Terminated(a, 0) && Str(a, 0) == x
  {
    LenIs(a, 0, |x|);
    assert a[..|x|] == x;
  }

  /** A terminated buffer stays terminated, with the same string, when nothing
      from `i` up to its terminator changes. */
  lemma {:induction false} StrFrame(a: seq<int>, b: seq<int>, i: nat)
    requires Terminated(a, i) && |a| == |b|
    requires forall k :: i <= k <= i + Len(a, i) ==> b[k] == a[k]
    ensures Terminated(b, i) && Len(b, i) == Len(a, i) && Str(b, i) == Str(a, i)
  {
    LenIs(b, i, Len(a, i));
  }

  /** The string from a later start inside a string is its suffix. */
  lemma {:induction false} StrSuffix(a: seq<int>, i: nat, j: nat)
    requires Terminated(a, i) && i <= j <= i + Len(a, i)
    ensures Terminated(a, j) && Str(a, j) == Str(a, i)[j - i..]
  {
    var n := Len(a, i);
    LenIs(a, j, i + n - j);
    assert Str(a, i)[j - i..] == a[j..i + n];
  }

  /** Writing a 0 inside a string cuts it there. */
  lemma {:induction false} StrCut(a: seq<int>, j: nat, n: nat)
    requires Terminated(a, j) && n < Len(a, j)
    ensures Terminated(a[j + n := 0], j) && Str(a[j + n := 0], j) == Str(a, j)[..n]
  {
    LenIs(a[j + n := 0], j, n);
  }

  /** Writing a 0 inside a string leaves the string after it as it was. */
  lemma {:induction false} StrCutTail(a: seq<int>, j: nat, n: nat)
    requires Terminated(a, j) && n < Len(a, j)
    ensures Terminated(a[j + n := 0], j + n + 1) && Str(a[j + n := 0], j + n + 1) == Str(a, j)[n + 1..]
  {
    StrSuffix(a, j, j + n + 1);
    StrFrame(a, a[j + n := 0], j + n + 1);
  }

  // ASCII classification, shared by the case folding and the digit test.

  /** What str_lwr does to one element: 'A'..'Z' move up by 0x20. */
  function Lower(c: int): (r: int)
    ensures r == 0 <==> c == 0
    ensures r != c ==> 'A' as int <= c <= 'Z' as int && r == c + 0x20
  {
    if 'A' as int <= c <= 'Z' as int then c + 0x20 else c
  }

  predicate IsDigit(c: int) {
    '0' as int <= c <= '9' as int
  }
}
