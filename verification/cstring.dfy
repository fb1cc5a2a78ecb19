/** C strings seen through `char *`: the text of a character buffer ends at
    its first NUL, and `strncpy` copies at most a given number of characters
    of that text. A buffer without any NUL stands for a string whose
    terminator immediately follows it. */
module CString {

  const NUL: char := '\0'

  predicate NulFree(s: string) {
    forall i :: 0 <= i < |s| ==> s[i] != NUL
  }

  /** The text that `strdup` copies and `%s` prints: the buffer up to, and
      not including, its first NUL. */
  function Text(buf: string): (t: string)
    ensures NulFree(t)
    ensures t <= buf
    ensures |t| < |buf| ==> buf[|t|] == NUL
  {
    if buf == [] || buf[0] == NUL then [] else [buf[0]] + Text(buf[1..])
  }

  /** `Text` is the only NUL-free prefix of the buffer that stops at a NUL
      or at the end, so the three facts in its contract determine it. */
  lemma {:induction false} TextUnique(buf: string, t: string)
    requires NulFree(t) && t <= buf
    requires |t| < |buf| ==> buf[|t|] == NUL
    ensures t == Text(buf)
  {
  }

  /** A string that already holds no NUL is its own text: `strdup` of a
      `strdup` copies the same characters. */
  lemma TextOfNulFree(s: string)
    requires NulFree(s)
    ensures Text(s) == s
  {
  }

  /** `strncpy(dst, src, n)`: copies characters of `src` until it has copied
      its terminating NUL or `n` characters, and fills the rest of the `n`
      positions with NULs. */
  function StrNCpy(src: string, n: nat): (dst: string)
    ensures |dst| == n
    decreases n
  {
    if n == 0 then []
    else if src == [] || src[0] == NUL then [NUL] + StrNCpy([], n - 1)
    else [src[0]] + StrNCpy(src[1..], n - 1)
  }

  function Min(a: nat, b: nat): nat {
    if a <= b then a else b
  }

  /** The buffer `strncpy(dst, src, n); dst[n] = '\0'` leaves behind holds
      the first at most `n` characters of the text of `src`. */
  lemma {:induction false} StrNCpyText(src: string, n: nat)
    ensures Text(StrNCpy(src, n) + [NUL]) == Text(src)[..Min(n, |Text(src)|)]
  {
    var buf := StrNCpy(src, n) + [NUL];
    if n == 0 {
      assert buf == [NUL];
    } else if src == [] || src[0] == NUL {
      assert buf[0] == NUL;
      assert Text(src) == [];
    } else {
      var rest := StrNCpy(src[1..], n - 1) + [NUL];
      assert buf == [src[0]] + rest;
      assert buf[1..] == rest;
      assert Text(buf) == [src[0]] + Text(rest);
      StrNCpyText(src[1..], n - 1);
      var t1 := Text(src[1..]);
      assert Text(src) == [src[0]] + t1;
      assert Min(n, |Text(src)|) == 1 + Min(n - 1, |t1|);
      assert ([src[0]] + t1)[..1 + Min(n - 1, |t1|)] == [src[0]] + t1[..Min(n - 1, |t1|)];
    }
  }
}
