/**
 * The routines of Stringy.c as loops over caller-owned buffers. Each method
 * is proved against the specification function in CString, BufferSpec,
 * TokenSpec or SearchSpec that states what it leaves behind.
 *
 * The wide (`wchar_t`) routines run the same loops over elements of W
 * bytes; those that take a size in bytes divide it by W first.
 */
module Stringy {
  import opened CString
  import opened BufferSpec
  import opened TokenSpec
  import opened SearchSpec

  /** sizeof(wchar_t) in bytes. */
  const W: nat := 4

  /** The largest size_t. */
  const SIZE_MAX: nat := 0xFFFF_FFFF_FFFF_FFFF

  /** `--size` on a size_t: 0 wraps round to SIZE_MAX. */
  function Dec(x: nat): nat {
    if x == 0 then SIZE_MAX else x - 1
  }

  /** str_equal (and wstr_equal): true exactly when the two strings are the
      same. */
  method Equal(a: array<int>, b: array<int>) returns (r: bool)
    requires Terminated(a[..], 0) && Terminated(b[..], 0)
    ensures r <==> Str(a[..], 0) == Str(b[..], 0)
  {
    ghost var n := Len(a[..], 0);
    ghost var m := Len(b[..], 0);
    StrEqualAgree(a[..], b[..]);
    var k := 0;
    while a[k] == b[k]
      invariant k <= n && k <= m
      invariant forall j :: 0 <= j < k ==> a[j] == b[j]
      decreases n - k
    {
      if a[k] == 0 {
        return true;
      }
      k := k + 1;
    }
    return false;
  }

  /** str_cpy: copy the source, as far as `size - 1` elements, and
      terminate; a NULL source leaves an empty string. */
  method Cpy(dest: array<int>, src: Option<array<int>>, size: nat)
    requires 1 <= size <= dest.Length
    requires src.Some? ==> src.value != dest && Terminated(src.value[..], 0)
    modifies dest
    ensures dest[..] == CpyResult(old(dest[..]), OrEmpty(old(Contents(src))), size)
  {
    ghost var d := dest[..];
    ghost var s: seq<int> := [];
    var k := 0;
    if src.Some? {
      var source := src.value;
      s := Str(source[..], 0);
      var left: nat := Dec(size);
      while left != 0 && source[k] != 0
        invariant source[..] == old(source[..])
        invariant k + left == size - 1 && k <= |s|
        invariant forall j :: 0 <= j < k ==> dest[j] == s[j]
        invariant forall j :: k <= j < dest.Length ==> dest[j] == d[j]
        decreases left
      {
        dest[k] := source[k];
        k := k + 1;
        left := Dec(left);
      }
    }
    assert s == OrEmpty(old(Contents(src)));
    assert k == Min(|s|, size - 1);
    dest[k] := 0;
    assert forall j :: 0 <= j < dest.Length ==> dest[j] == CpyResult(d, s, size)[j];
  }

  /** wstr_cpy: str_cpy with the size given in bytes. */
  method WCpy(dest: array<int>, src: Option<array<int>>, bytes: nat)
    requires W <= bytes && bytes / W <= dest.Length
    requires src.Some? ==> src.value != dest && Terminated(src.value[..], 0)
    modifies dest
    ensures dest[..] == CpyResult(old(dest[..]), OrEmpty(old(Contents(src))), bytes / W)
  {
    Cpy(dest, src, bytes / W);
  }

  /** str_cat: walk to the terminator of the destination, then copy the
      source after it. Both loops count down the same `size`; when the old
      string already fills size - 1 elements the count is 0 before the
      second loop, whose `--size` wraps round, so the source must then be
      empty (see CatEnd in Findings). */
  method Cat(dest: array<int>, src: Option<array<int>>, size: nat)
    requires 1 <= size <= dest.Length && Terminated(dest[..], 0)
    requires src.Some? ==> src.value != dest && Terminated(src.value[..], 0)
    requires src.Some? && Len(dest[..], 0) + 2 > size ==> Len(src.value[..], 0) == 0
    modifies dest
    ensures dest[..] == CatResult(old(dest[..]), old(Contents(src)), size)
  {
    ghost var d := dest[..];
    ghost var n := Len(d, 0);
    var k := 0;
    if src.Some? {
      var source := src.value;
      ghost var s := Str(source[..], 0);
      var left: nat := Dec(size);
      while left != 0 && dest[k] != 0
        invariant k + left == size - 1 && k <= n
        decreases left
      {
        k := k + 1;
        left := Dec(left);
      }
      assert n + 2 <= size ==> k == n && left == size - 1 - n;
      assert n + 2 > size ==> k == size - 1 && left == 0;
      left := Dec(left);
      var j := 0;
      while left != 0 && source[j] != 0
        invariant source[..] == old(source[..])
        invariant n + 2 <= size ==> k == n + j && j + left == size - 2 - n && j <= |s|
        invariant n + 2 > size ==> j == 0 && k == size - 1
        invariant forall t :: 0 <= t < dest.Length ==>
          dest[t] == (if n <= t < n + j then s[t - n] else d[t])
        decreases |s| - j
      {
        dest[k] := source[j];
        k := k + 1;
        j := j + 1;
        left := Dec(left);
      }
      assert n + 2 <= size ==> j == Min(|s|, size - 2 - n);
    }
    dest[k] := 0;
    assert forall t :: 0 <= t < dest.Length ==> dest[t] == CatResult(d, old(Contents(src)), size)[t];
  }

  /** wstr_cat: str_cat with the size given in bytes. */
  method WCat(dest: array<int>, src: Option<array<int>>, bytes: nat)
    requires W <= bytes && bytes / W <= dest.Length && Terminated(dest[..], 0)
    requires src.Some? ==> src.value != dest && Terminated(src.value[..], 0)
    requires src.Some? && Len(dest[..], 0) + 2 > bytes / W ==> Len(src.value[..], 0) == 0
    modifies dest
    ensures dest[..] == CatResult(old(dest[..]), old(Contents(src)), bytes / W)
  {
    Cat(dest, src, bytes / W);
  }

  /** The staging part of str_ins: the old string up to index `pos`, the
      source, the rest of the old string and a terminator, written into a
      fresh buffer of `size` elements. */
  method Stage(dest: array<int>, src: array<int>, size: nat, pos: nat) returns (tmp: array<int>)
    requires Terminated(dest[..], 0) && Terminated(src[..], 0)
    requires Len(dest[..], 0) + Len(src[..], 0) < size
    ensures fresh(tmp) && tmp.Length == size
    ensures Terminated(tmp[..], 0) && Str(tmp[..], 0) == Inserted(Str(dest[..], 0), Str(src[..], 0), pos)
  {
    ghost var t := Str(dest[..], 0);
    ghost var s := Str(src[..], 0);
    ghost var ins := Inserted(t, s, pos);
    tmp := new int[size];
    var i := 0;
    var o := 0;
    while i < pos && dest[i] != 0
      invariant i == o <= Min(pos, |t|)
      invariant forall x :: 0 <= x < o ==> tmp[x] == ins[x]
      decreases |t| - i
    {
      tmp[o] := dest[i];
      o := o + 1;
      i := i + 1;
    }
    var j := 0;
    while src[j] != 0
      invariant i == Min(pos, |t|) && j <= |s| && o == i + j
      invariant forall x :: 0 <= x < o ==> tmp[x] == ins[x]
      decreases |s| - j
    {
      tmp[o] := src[j];
      o := o + 1;
      j := j + 1;
    }
    while dest[i] != 0
      invariant Min(pos, |t|) <= i <= |t| && o == i + |s|
      invariant forall x :: 0 <= x < o ==> tmp[x] == ins[x]
      decreases |t| - i
    {
      tmp[o] := dest[i];
      o := o + 1;
      i := i + 1;
    }
    tmp[o] := 0;
    InsertedNoNul(t, s, pos);
    StrIs(tmp[..], ins);
  }

  /** str_ins after its `pos >= size` test: stage the insertion, then
      str_cpy it back into the destination. */
  method InsertInto(dest: array<int>, src: array<int>, size: nat, pos: nat)
    requires size <= dest.Length && Terminated(dest[..], 0) && Terminated(src[..], 0)
    requires Len(dest[..], 0) + Len(src[..], 0) < size
    modifies dest
    ensures dest[..] == InsResult(old(dest[..]), old(Str(src[..], 0)), size, pos)
  {
    var tmp := Stage(dest, src, size, pos);
    Cpy(dest, Some(tmp), size);
  }

  /** str_ins: nothing happens when `pos >= size`; otherwise the source
      goes in before element min(pos, len(dest)). The staging buffer holds
      `size` elements, so the combined string must fit in it (see
      StagingWrites in Findings). */
  method Ins(dest: array<int>, src: array<int>, size: nat, pos: nat)
    requires Terminated(dest[..], 0) && Terminated(src[..], 0)
    requires pos < size ==> size <= dest.Length && Len(dest[..], 0) + Len(src[..], 0) < size
    modifies dest
    ensures pos >= size ==> dest[..] == old(dest[..])
    ensures pos < size ==>
      dest[..] == InsResult(old(dest[..]), old(Str(src[..], 0)), size, pos)
  {
    if pos >= size {
      return;
    }
    InsertInto(dest, src, size, pos);
  }

  /** wstr_ins: the position is scaled to bytes before it is compared with
      the size in bytes; the staging buffer and the copy use size / W
      elements. */
  method WIns(dest: array<int>, src: array<int>, bytes: nat, pos: nat)
    requires Terminated(dest[..], 0) && Terminated(src[..], 0)
    requires pos * W < bytes ==> bytes / W <= dest.Length && Len(dest[..], 0) + Len(src[..], 0) < bytes / W
    modifies dest
    ensures pos * W >= bytes ==> dest[..] == old(dest[..])
    ensures pos * W < bytes ==>
      dest[..] == InsResult(old(dest[..]), old(Str(src[..], 0)), bytes / W, pos)
  {
    if pos * W >= bytes {
      return;
    }
    InsertInto(dest, src, bytes / W, pos);
  }

  /** str_lwr (and wstr_lwr): lower 'A'..'Z' in place up to the
      terminator. */
  method Lwr(a: array<int>)
    requires Terminated(a[..], 0)
    modifies a
    ensures a[..] == LowerStr(old(a[..]))
  {
    ghost var d := a[..];
    ghost var n := Len(d, 0);
    var k := 0;
    while true
      invariant k <= n
      invariant forall x :: 0 <= x < a.Length ==> a[x] == (if x < k then Lower(d[x]) else d[x])
      decreases n - k
    {
      if a[k] == 0 {
        break;
      }
      if 'A' as int <= a[k] <= 'Z' as int {
        a[k] := a[k] + 0x20;
      }
      k := k + 1;
    }
    assert forall x :: 0 <= x < a.Length ==> a[x] == LowerStr(d)[x];
  }

  /** str_isnum (and wstr_isnum): the loop body tests four elements in a
      row, each the same way. */
  method IsNum(a: array<int>) returns (r: bool)
    requires Terminated(a[..], 0)
    ensures r <==> IsNumeric(Str(a[..], 0))
  {
    ghost var c := Str(a[..], 0);
    if a[0] == 0 {
      return false;
    }
    var k := 0;
    while true
      invariant k <= |c| && forall x :: 0 <= x < k ==> IsDigit(c[x])
      decreases |c| - k
    {
      if a[k] == 0 { break; }
      if a[k] < '0' as int || a[k] > '9' as int { assert c[k] == a[k]; return false; }
      k := k + 1;
      if a[k] == 0 { break; }
      if a[k] < '0' as int || a[k] > '9' as int { assert c[k] == a[k]; return false; }
      k := k + 1;
      if a[k] == 0 { break; }
      if a[k] < '0' as int || a[k] > '9' as int { assert c[k] == a[k]; return false; }
      k := k + 1;
      if a[k] == 0 { break; }
      if a[k] < '0' as int || a[k] > '9' as int { assert c[k] == a[k]; return false; }
      k := k + 1;
    }
    return true;
  }

  /** str_numtok (and wstr_numtok): count the first element when it is not
      a delimiter, then every non-delimiter that ends a run of
      delimiters. */
  method NumTok(str: Option<array<int>>, d: int) returns (tokens: nat)
    requires str.Some? ==> Terminated(str.value[..], 0)
    ensures tokens == |Tokens(OrEmpty(Contents(str)), d)|
  {
    if str.None? || str.value[0] == 0 {
      assert OrEmpty(Contents(str)) == [];
      return 0;
    }
    var a := str.value;
    ghost var c := Str(a[..], 0);
    tokens := if a[0] != d then 1 else 0;
    var k := 0;
    while a[k] != 0
      invariant k <= |c|
      invariant k == 0 ==> tokens == (if c[0] != d then 1 else 0)
      invariant k > 0 ==> c[k - 1] != d && tokens + Runs(c[k..], d, false) == Runs(c, d, true)
      decreases |c| - k
    {
      if a[k] == d {
        ghost var k0 := k;
        while a[k] == d
          invariant k0 <= k <= |c| && d != 0
          invariant forall x :: k0 <= x < k ==> c[x] == d
          decreases |c| - k
        {
          k := k + 1;
        }
        RunsAfterDelims(c[k0..], d, k - k0, k0 == 0);
        assert c[k0..][k - k0..] == c[k..];
        if a[k] != 0 {
          tokens := tokens + 1;
          assert c[k..][1..] == c[k + 1..];
        } else {
          break;
        }
      } else {
        assert c[k..][1..] == c[k + 1..];
      }
      k := k + 1;
    }
    RunsCountTokens(c, d);
  }

  /** The loops of str_isin and wstr_isin, which differ only in the order
      of the two end tests. The search stops with Overrun where the outer
      loop would step past the terminator of the string. */
  method Search(s: array<int>, p: array<int>, order: CheckOrder) returns (r: Outcome)
    requires Terminated(s[..], 0) && Terminated(p[..], 0)
    ensures r == Scan(Str(s[..], 0), Str(p[..], 0), 0, order)
  {
    ghost var S := Str(s[..], 0);
    ghost var P := Str(p[..], 0);
    var i := 0;
    while s[i] != 0
      invariant i <= |S| && Scan(S, P, i, order) == Scan(S, P, 0, order)
      decreases |S| - i
    {
      if Lower(s[i]) == Lower(p[0]) {
        var m, j := i, 0;
        while true
          invariant m + j == i && i < |S| && j < |P|
          invariant Match(S, P, m, j, order) == Scan(S, P, 0, order)
          decreases |S| - i
        {
          i, j := i + 1, j + 1;
          if order == PatternEndFirst {
            if p[j] == 0 { return Found(m); }
            if s[i] == 0 { return NotFound; }
          } else {
            if s[i] == 0 { return NotFound; }
            if p[j] == 0 { return Found(m); }
          }
          if Lower(s[i]) != Lower(p[j]) {
            i := i + 1;
            if s[i] == 0 { return Overrun; }
            break;
          }
        }
      }
      i := i + 1;
    }
    return NotFound;
  }

  /** str_isin. */
  method IsIn(s: array<int>, p: array<int>) returns (r: Outcome)
    requires Terminated(s[..], 0) && Terminated(p[..], 0)
    ensures r == Scan(Str(s[..], 0), Str(p[..], 0), 0, PatternEndFirst)
  {
    r := Search(s, p, PatternEndFirst);
  }

  /** wstr_isin: the end of the string is tested before the end of the
      pattern. */
  method WIsIn(s: array<int>, p: array<int>) returns (r: Outcome)
    requires Terminated(s[..], 0) && Terminated(p[..], 0)
    ensures r == Scan(Str(s[..], 0), Str(p[..], 0), 0, StringEndFirst)
  {
    r := Search(s, p, StringEndFirst);
  }

  /** str_dup: a fresh buffer of len + 1 elements (strlen when `len` is 0)
      that str_cpy fills. */
  method Dup(s: array<int>, len: nat) returns (r: array<int>)
    requires Terminated(s[..], 0)
    ensures fresh(r) && r.Length == (if len == 0 then Len(s[..], 0) else len) + 1
    ensures Terminated(r[..], 0) && Str(r[..], 0) == Str(s[..], 0)[..Min(Len(s[..], 0), r.Length - 1)]
    ensures len == 0 || len >= Len(s[..], 0) ==> Str(r[..], 0) == Str(s[..], 0)
  {
    var n := len;
    if n == 0 {
      n := Len(s[..], 0);
    }
    n := n + 1;
    r := new int[n];
    ghost var z := r[..];
    Cpy(r, Some(s), n);
    CpyContent(z, Str(s[..], 0), n);
  }

  /** wstr_dup: the buffer is allocated and copied with its size in
      bytes. */
  method WDup(s: array<int>, len: nat) returns (r: array<int>)
    requires Terminated(s[..], 0)
    ensures fresh(r) && r.Length == (if len == 0 then Len(s[..], 0) else len) + 1
    ensures Terminated(r[..], 0) && Str(r[..], 0) == Str(s[..], 0)[..Min(Len(s[..], 0), r.Length - 1)]
    ensures len == 0 || len >= Len(s[..], 0) ==> Str(r[..], 0) == Str(s[..], 0)
  {
    var n := len;
    if n == 0 {
      n := Len(s[..], 0);
    }
    var bytes := W * (n + 1);
    r := new int[bytes / W];
    ghost var z := r[..];
    WCpy(r, Some(s), bytes);
    CpyContent(z, Str(s[..], 0), bytes / W);
  }

  /** str_size: the number of elements up to and including the
      terminator. */
  method Size(s: array<int>) returns (n: nat)
    requires Terminated(s[..], 0)
    ensures 0 < n <= s.Length && s[n - 1] == 0 && forall k :: 0 <= k < n - 1 ==> s[k] != 0
  {
    n := Len(s[..], 0) + 1;
  }

  /** wstr_size: the same count in bytes. */
  method WSize(s: array<int>) returns (n: nat)
    requires Terminated(s[..], 0)
    ensures n % W == 0 && 0 < n / W <= s.Length && s[n / W - 1] == 0 && forall k :: 0 <= k < n / W - 1 ==> s[k] != 0
  {
    n := (Len(s[..], 0) + 1) * W;
  }

  /** The leading loop of str_tok and str_tok_end: step past the
      delimiters that start the string at `i`. */
  method SkipFrom(a: array<int>, i: nat, d: int) returns (k: nat)
    requires Terminated(a[..], i) && a[i] != 0
    ensures k == i + SkipDelims(Str(a[..], i), d)
  {
    ghost var n := Len(a[..], i);
    k := i;
    while a[k] == d
      invariant i <= k <= i + n && (k > i ==> d != 0)
      invariant forall x :: i <= x < k ==> a[x] == d
      decreases i + n - k
    {
      k := k + 1;
    }
    SkipScan(a[..], i, d, k);
  }

  /** The loop of str_tok_end: the cursor moved past the delimiters, on a
      string that holds the same tokens. */
  method SkipCursor(p: Ptr, d: int) returns (q: Ptr)
    requires Terminated(p.buf[..], p.at) && p.buf[p.at] != 0
    ensures q == Ptr(p.buf, p.at + SkipDelims(Str(p.buf[..], p.at), d))
    ensures Terminated(p.buf[..], q.at) && Tokens(Str(p.buf[..], q.at), d) == Tokens(Str(p.buf[..], p.at), d)
  {
    ghost var A := p.buf[..];
    var k := SkipFrom(p.buf, p.at, d);
    assert p.buf[..] == A;
    SkipKeepsTokens(A, p.at, d);
    q := Ptr(p.buf, k);
  }

  /** The token loop of str_tok: from `i`, step to the first delimiter or
      the terminator. */
  method TokenEnd(a: array<int>, i: nat, d: int) returns (k: nat)
    requires Terminated(a[..], i)
    ensures k == i + TokenLen(Str(a[..], i), d) && k < a.Length
  {
    ghost var n := Len(a[..], i);
    k := i;
    while a[k] != 0 && a[k] != d
      invariant i <= k <= i + n
      invariant forall x :: i <= x < k ==> a[x] != d
      decreases i + n - k
    {
      k := k + 1;
    }
    TokenScan(a[..], i, d, k);
  }

  /** The work of str_tok on a string that is not empty: skip the
      delimiters, then end the token at the next delimiter with a 0. The
      token and where the cursor goes are returned as pointers. */
  method TokFrom(p: Ptr, d: int) returns (tok: Option<Ptr>, next: Option<Ptr>)
    requires Terminated(p.buf[..], p.at) && p.buf[p.at] != 0
    modifies p.buf
    ensures var o := TokStep(old(p.buf[..]), p.at, d);
      p.buf[..] == o.buf && tok == At(p.buf, o.token) && next == At(p.buf, o.next)
  {
    var a := p.buf;
    ghost var A := a[..];
    var begin := SkipFrom(a, p.at, d);
    StrSuffix(A, p.at, begin);
    var k := TokenEnd(a, begin, d);
    if a[k] != 0 {
      tok, next := CutToken(p, d, begin, k);
      return;
    }
    TokStepAtEnd(A, p.at, d, SkipDelims(Str(A, p.at), d), k - p.at, begin, k);
    next := None;
    tok := if a[begin] != 0 then Some(Ptr(a, begin)) else None;
  }

  /** The end of str_tok when the token scan stopped on a delimiter at `k`:
      write a 0 over it and step past it. */
  method CutToken(p: Ptr, d: int, begin: nat, k: nat) returns (tok: Option<Ptr>, next: Option<Ptr>)
    requires Terminated(p.buf[..], p.at) && begin == p.at + SkipDelims(Str(p.buf[..], p.at), d)
    requires Terminated(p.buf[..], begin) && k == begin + TokenLen(Str(p.buf[..], begin), d)
    requires k < p.buf.Length && p.buf[k] != 0
    modifies p.buf
    ensures var o := TokStep(old(p.buf[..]), p.at, d);
      p.buf[..] == o.buf && tok == At(p.buf, o.token) && next == At(p.buf, o.next)
  {
    var a := p.buf;
    ghost var A := a[..];
    TokStepAtDelim(A, p.at, d, SkipDelims(Str(A, p.at), d), k - p.at, begin, k);
    a[k] := 0;
    var s := k + 1;
    next := if a[s] != 0 then Some(Ptr(a, s)) else None;
    tok := if a[begin] != 0 then Some(Ptr(a, begin)) else None;
  }

  /** A pointer into `buf` at an optional index: NULL when there is none. */
  function At(buf: array<int>, i: Option<nat>): Option<Ptr> {
    if i.Some? then Some(Ptr(buf, i.value)) else None
  }

  /** The tokenizer state of Stringy.c: the file-static cursor `last` that
      str_tok and str_tok_end share (and `wlast`, for the wide pair, in a
      second instance). */
  class Tokenizer {
    var last: Option<Ptr>

    constructor ()
      ensures last == None
    {
      last := None;
    }

    /** The cursor is NULL or stands on a string. */
    ghost predicate CursorOk()
      reads this, if last.Some? then {last.value.buf} else {}
    {
      last.Some? ==> Terminated(last.value.buf[..], last.value.at)
    }

    /** str_tok: start at `str`, or at the cursor when `str` is NULL. A NULL
        or empty start returns NULL and keeps the cursor. Otherwise skip the
        delimiters, end the token at the next delimiter with a 0, and leave
        the cursor after that 0 (NULL at the terminator or when no delimiter
        follows); the result is the token, or NULL when only delimiters
        were left. */
    method Tok(str: Option<Ptr>, d: int) returns (r: Option<Ptr>)
      requires str.Some? ==> Terminated(str.value.buf[..], str.value.at)
      requires str.None? ==> CursorOk()
      modifies this, if str.Some? then {str.value.buf} else if last.Some? then {last.value.buf} else {}
      ensures var s := if str.Some? then str else old(last);
        if s.None? || old(s.value.buf[s.value.at]) == 0 then
          r.None? && last == old(last) && (s.Some? ==> s.value.buf[..] == old(s.value.buf[..]))
        else
          var o := TokStep(old(s.value.buf[..]), s.value.at, d);
          s.value.buf[..] == o.buf && r == At(s.value.buf, o.token) && last == At(s.value.buf, o.next)
      ensures var s := if str.Some? then str else old(last);
        s.Some? && old(s.value.buf[s.value.at]) != 0 ==> CursorOk()
    {
      if str.None? && last.None? {
        return None;
      }
      var p := if str.Some? then str.value else last.value;
      if p.buf[p.at] == 0 {
        return None;
      }
      ghost var A := p.buf[..];
      var next;
      r, next := TokFrom(p, d);
      last := next;
      TokStepSound(A, p.at, d);
    }

    /** str_tok_end: NULL when the cursor is NULL or on the terminator;
        otherwise move the cursor past the delimiters and return it. The
        buffer is not written. */
    method TokEnd(d: int) returns (r: Option<Ptr>)
      requires CursorOk()
      modifies this
      ensures old(last).None? || old(last.value.buf[last.value.at]) == 0 ==> r.None? && last == old(last)
      ensures old(last).Some? && old(last.value.buf[last.value.at]) != 0 ==>
        var p := old(last).value;
        last == Some(Ptr(p.buf, p.at + SkipDelims(Str(p.buf[..], p.at), d))) && r == last
      ensures CursorOk()
      ensures old(last).Some? && old(last.value.buf[last.value.at]) != 0 ==>
        var p := old(last).value;
        Tokens(Str(p.buf[..], last.value.at), d) == Tokens(Str(p.buf[..], p.at), d)
    {
      if last.None? || last.value.buf[last.value.at] == 0 {
        return None;
      }
      var q := SkipCursor(last.value, d);
      last := Some(q);
      r := last;
    }
  }
}
