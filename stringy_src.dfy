/**
 * The routines of the older Src/Stringy.c that differ from the current
 * file: str_tok, which neither skips leading delimiters nor returns NULL for
 * an empty token, and str_dup, which copies with memcpy. The other narrow
 * routines of the older file are the loops of module Stringy unchanged.
 */
module StringySrc {
  import opened CString
  import opened TokenSpec
  import opened Stringy

  /** The inner loop of the older str_tok: from `k`, overwrite delimiters
      with 0 until another element comes. */
  method ZeroDelims(a: array<int>, k: nat, d: int) returns (s: nat)
    requires Terminated(a[..], k) && a[k] != 0
    modifies a
    ensures s == k + SkipDelims(Str(old(a[..]), k), d)
    ensures a[..] == ZeroRange(old(a[..]), k, s)
  {
    ghost var A := a[..];
    ghost var n := Len(A, k);
    s := k;
    while a[s] == d
      invariant k <= s <= k + n && (s > k ==> d != 0)
      invariant a[..] == ZeroRange(A, k, s)
      invariant forall x :: k <= x < s ==> A[x] == d
      decreases k + n - s
    {
      a[s] := 0;
      s := s + 1;
    }
    SkipScan(A, k, d, s);
  }

  /** The end of the older str_tok when the scan stopped on a delimiter at
      `k`: zero the whole delimiter run and leave the cursor after it, even
      when the terminator follows. */
  method ZeroRun(p: Ptr, d: int, k: nat) returns (tok: Option<Ptr>, next: Option<Ptr>)
    requires Terminated(p.buf[..], p.at) && k == p.at + TokenLen(Str(p.buf[..], p.at), d)
    requires k < p.buf.Length && p.buf[k] != 0
    modifies p.buf
    ensures var o := OldTokStep(old(p.buf[..]), p.at, d);
      p.buf[..] == o.buf && tok == At(p.buf, o.token) && next == At(p.buf, o.next)
  {
    ghost var A := p.buf[..];
    StrSuffix(A, p.at, k);
    var s := ZeroDelims(p.buf, k, d);
    OldTokStepAtDelim(A, p.at, d, k - p.at, k, s);
    next := Some(Ptr(p.buf, s));
    tok := Some(p);
  }

  /** The work of the older str_tok on a string: find the first delimiter;
      the start is returned in every case. */
  method OldTokFrom(p: Ptr, d: int) returns (tok: Option<Ptr>, next: Option<Ptr>)
    requires Terminated(p.buf[..], p.at)
    modifies p.buf
    ensures var o := OldTokStep(old(p.buf[..]), p.at, d);
      p.buf[..] == o.buf && tok == At(p.buf, o.token) && next == At(p.buf, o.next)
  {
    var k := TokenEnd(p.buf, p.at, d);
    if p.buf[k] != 0 {
      tok, next := ZeroRun(p, d, k);
      return;
    }
    OldTokStepAtEnd(p.buf[..], p.at, d, k - p.at, k);
    next := None;
    tok := Some(p);
  }

  /** The tokenizer state of the older file: the function-static
      `prev_token` of str_tok. */
  class OldTokenizer {
    var prevToken: Option<Ptr>

    constructor ()
      ensures prevToken == None
    {
      prevToken := None;
    }

    /** The cursor is NULL or stands on a string. */
    ghost predicate CursorOk()
      reads this, if prevToken.Some? then {prevToken.value.buf} else {}
    {
      prevToken.Some? ==> Terminated(prevToken.value.buf[..], prevToken.value.at)
    }

    /** The older str_tok: start at `str`, or at the cursor when `str` is
        NULL; NULL only when both are. Otherwise return the start, write 0
        over the delimiter run that ends the first token, and leave the
        cursor after that run, or NULL when the string holds no
        delimiter. */
    method Tok(str: Option<Ptr>, d: int) returns (r: Option<Ptr>)
      requires str.Some? ==> Terminated(str.value.buf[..], str.value.at)
      requires str.None? ==> CursorOk()
      modifies this, if str.Some? then {str.value.buf} else if prevToken.Some? then {prevToken.value.buf} else {}
      ensures var s := if str.Some? then str else old(prevToken);
        if s.None? then
          r.None? && prevToken == old(prevToken)
        else
          var o := OldTokStep(old(s.value.buf[..]), s.value.at, d);
          s.value.buf[..] == o.buf && r == At(s.value.buf, o.token) && prevToken == At(s.value.buf, o.next)
      ensures (str.Some? || old(prevToken).Some?) ==> CursorOk()
    {
      var s := if str.Some? then str else prevToken;
      if s.None? {
        return None;
      }
      ghost var A := s.value.buf[..];
      var next;
      r, next := OldTokFrom(s.value, d);
      prevToken := next;
      OldTokStepSound(A, s.value.at, d);
    }
  }

  /** The older str_dup: len + 1 elements (strlen when `len` is 0) copied
      with memcpy into a fresh buffer, whatever they hold. */
  method OldDup(s: array<int>, len: nat) returns (r: array<int>)
    requires Terminated(s[..], 0)
    requires len == 0 || len < s.Length
    ensures fresh(r)
    ensures r[..] == s[..(if len == 0 then Len(s[..], 0) else len) + 1]
  {
    var n := len;
    if n == 0 {
      n := Len(s[..], 0);
    }
    n := n + 1;
    r := new int[n](k requires 0 <= k < n reads s => s[k]);
  }
}
