/** The C-library view of the fixed `char[]` buffers holding credentials:
    what `strlen` sees in a buffer, and what `strncpy` and `strcpy` store. */
module CStrings {

  const NUL: char := '\0'

  /** The C string held in `buf`: its characters before the first NUL. When
      `buf` holds no NUL at all, `strlen` would run past the end of the
      buffer; the model then stops at the end. */
  function CStr(buf: seq<char>): (r: seq<char>)
    ensures |r| <= |buf| && r == buf[..|r|]
    ensures NUL !in r
    ensures |r| < |buf| ==> buf[|r|] == NUL
  {
    if buf == [] || buf[0] == NUL then [] else [buf[0]] + CStr(buf[1..])
  }

  /** `n` NUL characters. */
  function Nuls(n: nat): (r: seq<char>)
    ensures |r| == n && forall i :: 0 <= i < n ==> r[i] == NUL
  {
    seq(n, _ => NUL)
  }

  /** Reading a C string back ends at the first terminator. */
  lemma {:induction false} CStrOfTerminated(s: seq<char>, rest: seq<char>)
    requires NUL !in s
    ensures CStr(s + [NUL] + rest) == s
  {
    if s != [] {
      assert (s + [NUL] + rest)[1..] == s[1..] + [NUL] + rest;
      CStrOfTerminated(s[1..], rest);
    }
  }

  /** The `n` bytes `strncpy(dst, src, n)` stores in `dst`: the C string of
      `src`, cut at `n` characters, and NUL padding up to `n`. */
  function Strncpy(src: seq<char>, n: nat): (r: seq<char>)
    ensures |r| == n
    ensures forall i :: 0 <= i < n ==> r[i] == if i < |CStr(src)| then CStr(src)[i] else NUL
  {
    var s := CStr(src);
    if |s| >= n then s[..n] else s + Nuls(n - |s|)
  }

  /** `strncpy(dst, src, sizeof(dst))` leaves a terminated C string in `dst`
      exactly when `src` is shorter than the buffer; the string read back is
      then `src`. A source as long as the buffer or longer leaves no NUL in
      it at all. */
  lemma StrncpyTerminated(src: seq<char>, n: nat)
    ensures NUL in Strncpy(src, n) <==> |CStr(src)| < n
    ensures |CStr(src)| < n ==> CStr(Strncpy(src, n)) == CStr(src)
  {
    var s := CStr(src);
    if |s| < n {
      assert Strncpy(src, n)[|s|] == NUL;
      assert Strncpy(src, n) == s + [NUL] + Nuls(n - |s| - 1);
      CStrOfTerminated(s, Nuls(n - |s| - 1));
    } else {
      assert forall i :: 0 <= i < n ==> Strncpy(src, n)[i] == s[i];
    }
  }

  /** The bytes `strcpy(dst, src)` leaves in a buffer that held `buf`: the C
      string of `src` and its terminator; the bytes after it are untouched.
      The copy is unbounded, so it stays inside the buffer only when the
      string is shorter than the buffer. */
  function Strcpy(buf: seq<char>, src: seq<char>): (r: seq<char>)
    requires |CStr(src)| < |buf|
    ensures |r| == |buf|
    ensures r[..|CStr(src)|] == CStr(src) && r[|CStr(src)|] == NUL
    ensures r[|CStr(src)| + 1..] == buf[|CStr(src)| + 1..]
    ensures CStr(r) == CStr(src)
  {
    var s := CStr(src);
    CStrOfTerminated(s, buf[|s| + 1..]);
    s + [NUL] + buf[|s| + 1..]
  }

  /** `strncpy(dst, src, dst.Length)` on a fixed buffer. */
  method StrncpyInto(dst: array<char>, src: seq<char>)
    modifies dst
    ensures dst[..] == Strncpy(src, dst.Length)
  {
    var bytes := Strncpy(src, dst.Length);
    forall i | 0 <= i < dst.Length {
      dst[i] := bytes[i];
    }
  }

  /** `strcpy(dst, src)` on a fixed buffer; the caller must make sure that the
      string and its terminator fit. */
  method StrcpyInto(dst: array<char>, src: seq<char>)
    requires |CStr(src)| < dst.Length
    modifies dst
    ensures dst[..] == Strcpy(old(dst[..]), src)
  {
    var bytes := Strcpy(dst[..], src);
    forall i | 0 <= i < dst.Length {
      dst[i] := bytes[i];
    }
  }
}
