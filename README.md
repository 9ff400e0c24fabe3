# Stringy in Dafny

Stringy is a small C library of string routines that work on NUL-terminated
buffers owned by the caller. This project models the routines of the
current `Stringy.c` and the routines of the older `Src/Stringy.c` that
differ from it, and proves what each leaves in the buffers it is given.

A buffer is an `array<int>`. The string it holds at index `i` is the run of
elements before the first 0 from `i` on (`CString.Str`), and its length is
`CString.Len`, the model of `strlen`. A NULL pointer is `None` of an
`Option`; a pointer into the middle of a buffer (a token, the tokenizer
cursor) is a `Ptr(buf, at)`. Narrow and wide strings are the same here:
elements are unbounded integers. The wide routines that take a size in bytes
divide it by `W = 4`, the `sizeof(wchar_t)` of the `GETWLENGTH` macro.

Modules:

- `CString`: strings in buffers, `strlen`, and the case folding of
  `__str_ccmp_case`.
- `BufferSpec`: what `str_cpy`, `str_cat`, `str_ins` and `str_lwr` leave in
  the destination, as functions of the old contents, with lemmas about the
  resulting string.
- `TokenSpec`: the tokens of a string and one call of each version of
  `str_tok` as a function (`TokStep`, `OldTokStep`), with the promise each
  call keeps and the count of calls that return a token.
- `SearchSpec`: the search of `str_isin`/`wstr_isin` as written, and the
  first-occurrence search its comment promises.
- `Stringy`: the loops of `Stringy.c` as methods over arrays, each proved
  against the functions above. The file-static cursor `last` that `str_tok`
  and `str_tok_end` share is the field of class `Tokenizer`.
- `StringySrc`: the older `str_tok`, with its function-static `prev_token`
  as the field of class `OldTokenizer`, and the older `str_dup`.
- `Findings`: the two places where the bounded writers, as written, do not
  stay inside their buffers.

The narrow routines `str_equal`, `str_cpy`, `str_cat`, `str_ins` and
`str_lwr` of `Src/Stringy.c` are the same loops as in `Stringy.c`. The only
textual differences are `*dest++` for `dest++` in `str_cat` and `alloca` for
`mem_stack_alloc`/`mem_stack_free` in `str_ins`. So one member models both,
and its row names the lines of both. The wide routines whose only
difference from the narrow one is the element type (`wstr_equal`,
`wstr_lwr`, `wstr_tok`, `wstr_tok_end`, `wstr_numtok`, `wstr_isnum`) are
the narrow member too. `wstr_tok` and `wstr_tok_end` share their own cursor
`wlast`, which is a second `Tokenizer` instance.

Where the code and the documented behaviour differ, the model follows the
code:

- `str_cat` with a NULL source writes 0 at `dest[0]`, which leaves the
  destination empty rather than unchanged.
- The current `str_tok` does not write over the delimiters it skips. It
  writes one 0, over the delimiter that ends the token, and leaves the
  cursor just after it. Any further delimiters are skipped by the next call.
- The current `str_tok` called with an empty string returns NULL and keeps
  the previous cursor rather than discarding it.

## Model

| member | source | states |
|---|---|---|
| CString.Len | Stringy.c:489 | `strlen`: the index of the first 0 from `i`, with no 0 before it |
| CString.Lower | Stringy.c:379-384 | the case folding of `__str_ccmp_case`: it changes only 'A'..'Z', each by +0x20, and maps to 0 exactly the terminator |
| BufferSpec.StrEqualAgree | Stringy.c:28-36 | two strings are equal exactly when their buffers agree element by element up to and including the first terminator |
| Stringy.Equal | Stringy.c:28-36 | `str_equal` (and `wstr_equal`, 38-46) returns true exactly when the two strings are the same; the older routine at Src/Stringy.c:26-34 is the same loop |
| BufferSpec.CpyResult | Stringy.c:54-65 | the buffer `str_cpy` leaves: the first min(len, `size` - 1) source elements, a 0 after them, the rest of the buffer as it was; the buffer keeps its size (its content is stated by `CpyContent`) |
| Stringy.Cpy | Stringy.c:54-65 | `str_cpy` leaves the buffer `CpyResult`: the source cut to `size - 1` elements, a terminator, and the rest as it was; a NULL source gives the empty string; the older routine at Src/Stringy.c:55-66 is the same loop |
| BufferSpec.CpyContent | Stringy.c:54-65 | after the copy the buffer holds the longest prefix of the source that fits, terminated before `size`, and nothing at or above `size` changed |
| Stringy.WCpy | Stringy.c:67-80 | `wstr_cpy` is `str_cpy` over `size / W` elements |
| BufferSpec.CatResult | Stringy.c:88-104 | the buffer `str_cat` leaves where it stays inside it: 0 at index 0 for a NULL source; otherwise the old string, the source cut so the total stays at most `size` - 2, and a 0; the buffer keeps its size (its content is stated by `CatContent` and `CatStr`) |
| Stringy.Cat | Stringy.c:88-104 | `str_cat`, where it stays inside the buffer, leaves it `CatResult`: the old string, then as much of the source as keeps the total at `size - 2`, then a terminator; a NULL source writes 0 at index 0; the older routine at Src/Stringy.c:92-108 is the same loop |
| BufferSpec.CatContent | Stringy.c:88-104 | appending keeps the old string and adds the longest prefix of the source that leaves the length at most `size - 2`; nothing at or above `size` changes |
| BufferSpec.CatStr | Stringy.c:92-103 | the string after appending and its exact length |
| BufferSpec.CatKeeps | Stringy.c:92-103 | appending writes nothing at or above `size` |
| BufferSpec.CatEmptySource | Stringy.c:88-104 | appending the empty string to a string that fits changes no element of the buffer |
| BufferSpec.CatNullSource | Stringy.c:90-103 | with a NULL source the buffer holds the empty string |
| Stringy.WCat | Stringy.c:106-124 | `wstr_cat` is `str_cat` over `size / W` elements |
| BufferSpec.Inserted | Stringy.c:143-150 | the insertion has the length of the old string and the source together |
| BufferSpec.InsertedSplits | Stringy.c:143-150 | the insertion is the old string up to min(pos, len), the source, and the rest of the old string |
| BufferSpec.InsertedNoNul | Stringy.c:143-150 | inserting one string into another gives a string with no 0 in it |
| BufferSpec.InsertedExample | Stringy.c:133-156 | "X" inserted into "ABC" at 1 gives "AXBC", and at 7 gives "ABCX" |
| BufferSpec.InsResult | Stringy.c:133-156 | the buffer `str_ins` leaves: the insertion of the source into the old string, copied back as `str_cpy` copies; the buffer keeps its size (its content is stated by `InsContent` and `InsTruncates`) |
| Stringy.Stage | Stringy.c:140-152 | the staging loops fill a fresh buffer of `size` elements with the insertion of the source into the old string, terminated |
| Stringy.InsertInto | Stringy.c:140-155 | staging and copying back leaves the destination `InsResult`: the insertion, copied as `str_cpy` copies |
| Stringy.Ins | Stringy.c:133-156 | `str_ins` changes nothing when `pos >= size`, and otherwise leaves `InsResult`; the older routine at Src/Stringy.c:141-162 is the same loop |
| BufferSpec.InsContent | Stringy.c:133-156 | when the combined string fits, the destination holds exactly the source inserted at min(pos, len) into the old string, and nothing at or above `size` changes |
| Stringy.WIns | Stringy.c:158-183 | `wstr_ins` scales `pos` to bytes for the comparison with `size`, then inserts over `size / W` elements |
| Stringy.Lwr | Stringy.c:189-198 | `str_lwr` (and `wstr_lwr`, 200-209) leaves `LowerStr` of the old buffer; the older routine at Src/Stringy.c:208-217 is the same loop |
| BufferSpec.LowerStr | Stringy.c:189-198 | the buffer `str_lwr` leaves: each element before the first 0 passed through the case folding, the rest as it was; the buffer keeps its size (its content is stated by `LowerStrContent`) |
| BufferSpec.LowerStrContent | Stringy.c:189-198 | lowering keeps the length of the string, changes only 'A'..'Z' elements, each by +0x20, and lowers every one of them |
| Stringy.IsNum | Stringy.c:341-355 | `str_isnum` (and `wstr_isnum`, 357-371) returns true exactly when the string is non-empty and all ASCII digits; the four tests of the unrolled loop are one test |
| BufferSpec.IsNumeric | Stringy.c:341-355 | what `str_isnum` decides: a non-empty string of ASCII digits, so a numeric string starts with a digit |
| BufferSpec.IsNumericExample | Stringy.c:341-355 | "0042" is numeric; "" and "12a" are not |
| TokenSpec.SkipDelims | Stringy.c:225 | the leading delimiters: all delimiters, followed by a non-delimiter or the end |
| TokenSpec.TokenLen | Stringy.c:228-230 | the first token: no delimiter in it, followed by a delimiter or the end |
| TokenSpec.Tokens | Stringy.c:217-240 | the tokens `str_tok` returns one by one: the maximal non-empty runs of non-delimiters, in order (the definition carries no contract of its own; its shape is stated by `TokensShape` and `TokensSplit`, and its count by `RunsCountTokens`) |
| TokenSpec.TokensShape | Stringy.c:217-240 | every token is non-empty and holds no delimiter |
| TokenSpec.TokensSplit | Stringy.c:225-238 | the first token lies between the leading delimiters and the next delimiter, and the rest are the tokens after it |
| TokenSpec.TokensDropDelims | Stringy.c:225 | leading delimiters start no token |
| TokenSpec.TokensExample | Stringy.c:217-240 | "a,,b,c" split at ',' gives "a", "b", "c" |
| TokenSpec.TokStep | Stringy.c:217-240 | one call of `str_tok` from a cursor: skip the delimiters, write 0 over the delimiter that ends the token, put the cursor after it, or NULL at the terminator; the buffer keeps its size, and a cursor is only set after a token |
| TokenSpec.TokStepWrites | Stringy.c:225-239 | one call of `str_tok` writes 0 over the delimiter that ends the token and nothing else; the skipped delimiters are not written; the result is NULL exactly when only delimiters were left; the cursor follows the written 0 |
| TokenSpec.TokStepSound | Stringy.c:217-240 | one call returns NULL exactly when no token is left and otherwise the first token; the cursor is NULL only when at most one token was left, and otherwise stands on a string holding exactly the remaining tokens |
| TokenSpec.TokStepAtDelim | Stringy.c:228-235 | when the token scan stops on a delimiter, `TokStep` writes a 0 there and moves the cursor past it, or to NULL when the terminator follows |
| TokenSpec.TokStepAtEnd | Stringy.c:238-239 | when the scan stops at the terminator, nothing is written and the cursor becomes NULL |
| Stringy.SkipFrom | Stringy.c:225 | the skip loop of `str_tok` and `str_tok_end` stops after `SkipDelims` elements |
| Stringy.SkipCursor | Stringy.c:272-277 | the loop of `str_tok_end` moves the cursor past the leading delimiters, onto a string that holds the same tokens |
| Stringy.TokenEnd | Stringy.c:228-230 | the token loop stops after `TokenLen` elements, on the delimiter or the terminator |
| Stringy.TokFrom | Stringy.c:225-239 | on a non-empty string the loops leave the buffer, token and cursor `TokStep` gives |
| Stringy.CutToken | Stringy.c:232-235 | the 0 written over the delimiter and the cursor after it are those of `TokStep` |
| Stringy.Tokenizer.constructor | Stringy.c:19-20 | the cursor starts NULL |
| Stringy.Tokenizer.Tok | Stringy.c:217-240 | `str_tok`: a NULL or empty start returns NULL and changes nothing; otherwise the buffer, result and cursor are those of `TokStep`, and the cursor is left on a string |
| Stringy.Tokenizer.TokEnd | Stringy.c:272-278 | `str_tok_end`: NULL, with the cursor kept, when the cursor is NULL or on the terminator; otherwise the cursor moves past the delimiters, the buffer is not written, the cursor is returned, and the remaining tokens stay the same |
| TokenSpec.RunsCountTokens | Stringy.c:294-313 | counting elements that are not delimiters and follow a delimiter or the start gives the number of tokens |
| TokenSpec.Runs | Stringy.c:294-313 | the count `str_numtok`'s loops keep: one for each non-delimiter that follows a delimiter or the start; it is at most the length of the string |
| Stringy.NumTok | Stringy.c:294-313 | `str_numtok` (and `wstr_numtok`, 315-334) returns the number of tokens, and 0 for NULL or the empty string |
| TokenSpec.TokCallsCountTokens | Stringy.c:217-240 | repeated `str_tok` calls on a string return exactly one non-NULL result per token, as many as `str_numtok` counts |
| TokenSpec.TokCalls | Stringy.c:217-240 | the number of calls of `str_tok`, first on the string and then with NULL, that return a token before the cursor runs out; at most the elements from the start to the end of the buffer |
| SearchSpec.ScanFound | Stringy.c:393-415 | a match `str_isin` reports is a case-insensitive occurrence of the pattern; one `wstr_isin` reports also ends before the end of the string |
| SearchSpec.EmptyPatternNotFound | Stringy.c:398-400 | an empty pattern is never found |
| SearchSpec.IgnoresCase | Stringy.c:379-384 | "Hello World" holds "WORLD" at 6 |
| Stringy.Search | Stringy.c:393-439 | the shared loop of `str_isin` and `wstr_isin` returns `Scan` in the given order of end tests |
| Stringy.IsIn | Stringy.c:393-415 | `str_isin` tests the end of the pattern first |
| Stringy.WIsIn | Stringy.c:417-439 | `wstr_isin` tests the end of the string first |
| SearchSpec.Scan | Stringy.c:398-412 | the `for` loop of `str_isin` (and of `wstr_isin`, 422-436): on the element at `i`, NotFound at the terminator, one step past it Overrun, the inner loop on a case-insensitive match of the pattern's first element, otherwise the next element; a reported match lies at or after `i`, inside the string, and Overrun needs a pattern of two elements or more |
| SearchSpec.Match | Stringy.c:404-412 | the `while` loop of `str_isin` after a matched pair, with the two end tests in `wstr_isin`'s order at 428-432 as the other choice; on a mismatch both pointers have stepped once more and the outer loop steps again; a match it reports lies at or after where it started, inside the string |
| Stringy.Dup | Stringy.c:447-462 | `str_dup` returns a fresh buffer of len + 1 elements (strlen + 1 when len is 0) holding the string cut to len, which is the whole string when len is 0 |
| Stringy.WDup | Stringy.c:464-479 | `wstr_dup` sizes the buffer in bytes and copies with `wstr_cpy`, with the same result |
| Stringy.Size | Stringy.c:487-490 | `str_size` is the length of the string plus one: the index after the first terminator |
| Stringy.WSize | Stringy.c:492-495 | `wstr_size` is the same count times W |
| TokenSpec.ZeroRange | Src/Stringy.c:250 | zeroing a range keeps the length of the buffer |
| TokenSpec.OldTokStep | Src/Stringy.c:235-259 | one call of the older `str_tok`: return the start, write 0 over the whole delimiter run that ends the token, put the cursor after the run, or NULL at the terminator; the token is always the start, and the cursor moves forward and stays inside the string or on its terminator |
| TokenSpec.OldTokens | Src/Stringy.c:235-259 | the tokens the older `str_tok` returns one by one: the text up to each delimiter run, empty before a leading run and after a trailing one; there is at least one, and at most one more than the elements |
| TokenSpec.OldTokCalls | Src/Stringy.c:235-259 | the number of calls of the older `str_tok` before its cursor becomes NULL: at least one, and at most the elements from the start to the end of the buffer |
| TokenSpec.OldTokStepSound | Src/Stringy.c:235-259 | one call of the older `str_tok` returns its start, cut to the first older token; the cursor is NULL only when that was the last one, and otherwise stands on a string holding exactly the remaining older tokens |
| TokenSpec.OldTokStepWrites | Src/Stringy.c:246-253 | the older `str_tok` writes 0 over every element of the delimiter run that ends the token and over no other element, and the cursor goes to the end of the run |
| TokenSpec.OldTokStepStops | Src/Stringy.c:246-258 | the older cursor becomes NULL exactly when the string holds no delimiter |
| TokenSpec.OldTokStepAtDelim | Src/Stringy.c:248-253 | when the scan stops on a delimiter, `OldTokStep` zeroes the run and leaves the cursor after it |
| TokenSpec.OldTokStepAtEnd | Src/Stringy.c:257-258 | when the scan reaches the terminator, nothing is written and the cursor becomes NULL |
| TokenSpec.OldTokCallsCountTokens | Src/Stringy.c:235-259 | repeated calls of the older `str_tok` return one result per older token before the cursor becomes NULL |
| TokenSpec.OldTokensExample | Src/Stringy.c:235-259 | "a,,b,c" split at ',' gives "a", "b", "c" in the older version too |
| TokenSpec.OldTokensTrailing | Src/Stringy.c:248-258 | "a," gives "a" and then the empty token |
| TokenSpec.OldTokensLeading | Src/Stringy.c:241-253 | ",a" gives the empty token first, since leading delimiters are not skipped |
| StringySrc.ZeroDelims | Src/Stringy.c:250 | the zeroing loop stops after `SkipDelims` elements and zeroes exactly those |
| StringySrc.ZeroRun | Src/Stringy.c:248-253 | on a delimiter, the loops leave the buffer, token and cursor `OldTokStep` gives |
| StringySrc.OldTokFrom | Src/Stringy.c:246-258 | on any string the loops leave the buffer, token and cursor `OldTokStep` gives |
| StringySrc.OldTokenizer.constructor | Src/Stringy.c:239 | `prev_token` starts NULL |
| StringySrc.OldTokenizer.Tok | Src/Stringy.c:235-259 | the older `str_tok`: NULL, with the cursor kept, only when the start and the cursor are both NULL; otherwise the buffer, result and cursor are those of `OldTokStep`, and the cursor is left on a string |
| StringySrc.OldDup | Src/Stringy.c:293-308 | the older `str_dup` returns a fresh copy of the first len + 1 elements (strlen + 1 when len is 0), whatever they hold |
| BufferSpec.CopyPrefix | Src/Stringy.c:296-306 | a copy of the first n + 1 elements is terminated exactly when the string fits in n, and then holds the same string; so `str_dup(s, 0)` equals `s`, and a shorter `len` leaves the copy unterminated |
| BufferSpec.InsTruncates | Stringy.c:133-156 | the corrected insertion always leaves a terminated string shorter than `size`, the longest prefix of the insertion that fits, and writes nothing at or above `size` |
| Findings.CatEndInside | Stringy.c:92-103 | where the old string leaves room, the terminator of the code as written lands where `CatResult` puts it, inside the buffer |
| Findings.CatEndOutside | Stringy.c:92-103 | when the old string takes `size - 1` elements or more and the source is not empty, the terminator of the code as written lands at or beyond `size` |
| Findings.CatOverrunExample | Stringy.c:92-103 | "abc" in 4 elements with "x" appended puts the terminator at index 4 |
| Findings.CatEnd | Stringy.c:92-103 | the index where `str_cat` as written puts the terminator, with the count of the second loop wrapping round; it lies after the kept part of the old string and no farther than the whole of both strings |
| Findings.CatStaysInside | Stringy.c:88-104 | the corrected `CatResult` keeps a terminated string shorter than `size` for every input, and writes nothing at or above `size` |
| Findings.StagingFits | Stringy.c:140-152 | the staging writes fit `size` elements exactly when the old string and the source together are shorter than `size` |
| Findings.StagingOverrunExample | Stringy.c:140-152 | "ABC" in 4 elements with "XY" inserted at 1 stages 6 elements into a buffer of 4 |
| Findings.StagingWrites | Stringy.c:140-152 | the elements the three staging loops write: the insertion and a terminator, one more element than the two strings together |
| SearchSpec.FindFirstIsFirst | Stringy.c:373-378 | the first-occurrence search the comment promises finds the first occurrence, and returns NULL exactly when there is none or the pattern is empty; it never reads past the string |
| SearchSpec.FindFirst | Stringy.c:373-378 | the first-occurrence search the comment promises; a match it reports is a case-insensitive occurrence at or after the start |
| SearchSpec.NoBacktrackMisses | Stringy.c:393-415 | `str_isin` as written misses "ab" in "aab", which the first-occurrence search finds at 1 |
| SearchSpec.MismatchAtEndOverruns | Stringy.c:404-412 | a mismatch on the last element, "ab" searched for "ac", makes the outer loop step past the terminator |
| SearchSpec.WideMissesMatchAtEnd | Stringy.c:428-432 | a match that ends at the end of the string, "b" in "ab", is found by `str_isin` and missed by `wstr_isin` |

## Left out

- Allocation failure: `malloc` followed by `assert` in `str_dup`/`wstr_dup`, `mem_stack_alloc`/`mem_stack_free` in `str_ins` (from `Platform/Alloc.h`, which is not part of this model) and `alloca` in the older `str_ins`. Each is a fresh array; there is no failure path.
- The initial contents of fresh buffers, which are unspecified in C. Dafny's `new int[n]` gives some contents, and no contract depends on them.
- `strlen`, `wcslen` and `memcpy` from the C library. They are the function `CString.Len` and an array built from a slice.
- The wide routines of `Src/Stringy.c`. They step `wchar_t` pointers by `sizeof(wchar_t)` elements, which skips elements and runs past terminators, so they have no contract worth stating.
- `Stringy.h`: prototypes and macros only.
- The thread-unsafety of the static cursors. There is one caller; the cursor is a field.
- Integer widths: elements are unbounded integers, and `W` is fixed at 4.
- Stringy.Cpy: requires `size >= 1`. With `size == 0`, `--size` wraps round and the copy is unbounded.
- Stringy.Cat: requires that a non-empty source is appended only to a string shorter than `size - 1`. Otherwise `--size` wraps round before the second loop and the code writes past the buffer (see Findings).
- Stringy.Ins: requires that the old string and the source together are shorter than `size` whenever `pos < size`, because the staging buffer holds only `size` elements (see Findings).
- Stringy.WIns: `pos * sizeof(wchar_t)` is taken without `size_t` wrap-around. The staging condition is stated in elements, `size / W`.
- Stringy.NumTok: returns an unbounded count. The `uint32` result of the source would wrap after 2^32 tokens.
- Stringy.Dup: `len + 1` and `sizeof(wchar_t) * (len + 1)` are taken without `size_t` wrap-around.
- StringySrc.OldDup: requires that the buffer holds the `len + 1` elements `memcpy` reads.
- Stringy.Cpy, Stringy.Cat: a copy or an append whose source lies in the destination buffer is not modelled; the writers require different arrays. The C `str_cpy` handles a self-copy, which keeps the string cut to `size` - 1, and a source ahead of the destination, which shifts the string left. `str_ins` reads the destination only into the staging buffer, so it needs no such requirement.
- Search: after `Overrun`, the code as written goes on reading past the terminator. The model stops at the first such step.
- The raw address comparison of `wstr_ins` is an index comparison with the position scaled by `W`.
- `Stringy.Tokenizer.Tok` and `StringySrc.OldTokenizer.Tok` require that the tokenizer is handed a string that is still terminated, and that the cursor still stands on one. The C code cannot check this once the caller has changed the buffer between calls.

## Findings

| source | as written | input that shows it | evidently intended | confidence | as-written member | corrected member |
|---|---|---|---|---|---|---|
| Stringy.c:92-103 | the shared `--size` count reaches 0 in the first loop when the old string takes `size - 1` elements, and the second loop's `--size` wraps round to SIZE_MAX, so the source is appended past the buffer | "abc" in a buffer of 4, `str_cat(dest, "x", 4)`: 'x' goes to index 3 and the terminator to index 4 | append nothing and terminate at `size - 1`, as `CatResult` does | not executed | Findings.CatOverrunExample | Findings.CatStaysInside |
| Stringy.c:140-152 | the staging buffer has `size` elements, but the three loops write the whole insertion and a terminator into it | "ABC" in a buffer of 4, `str_ins(dest, "XY", 4, 1)`: 6 elements staged into 4 | stage the whole insertion and keep only what fits, as `InsResult` does | not executed | Findings.StagingOverrunExample | BufferSpec.InsTruncates |
| Stringy.c:393-415 | after a partial match the outer loop goes on after the mismatch, so an occurrence that starts inside the partial match is missed | `str_isin("aab", "ab")` returns NULL | the first occurrence, as the comment at Stringy.c:373-378 says | not executed | SearchSpec.NoBacktrackMisses | SearchSpec.FindFirstIsFirst |
| Stringy.c:404-412 | on a mismatch both pointers have already stepped, and the `for` loop steps again, past the terminator when the mismatch was on the last element | `str_isin("ab", "ac")` reads the element after the terminator | stop at the end of the string | not executed | SearchSpec.MismatchAtEndOverruns | SearchSpec.FindFirstIsFirst |
| Stringy.c:428-432 | `wstr_isin` tests the end of the string before the end of the pattern, so a match that ends at the end of the string is rejected | `wstr_isin(L"ab", L"b")` returns NULL, where `str_isin("ab", "b")` finds it | find it, as `str_isin` does | not executed | SearchSpec.WideMissesMatchAtEnd | SearchSpec.FindFirstIsFirst |
