/** `gen_frag_src` (shaderun.c:43-61): the fragment stage handed to the
    compiler is the preamble followed by the user's file, built in C
    buffers with `malloc`, a NUL sentinel, `strcpy` and `strcat`.

    A C string is a buffer read up to its first NUL.  The file itself is
    not opened here: its bytes arrive as `contents`, which is what `fread`
    puts in the buffer when it reads the whole `ftell` length. */
module Assembler {
  import opened ShaderSource

  const NUL: char := '\0'

  /** The C string a buffer holds: its characters before the first NUL (all
      of them when there is none). */
  function CString(buf: seq<char>): (s: seq<char>)
    ensures s <= buf && NUL !in s
    ensures |s| < |buf| ==> buf[|s|] == NUL
  {
    if buf == [] || buf[0] == NUL then [] else [buf[0]] + CString(buf[1..])
  }

  /** The text `gen_frag_src` returns for a file with these contents. */
  function AssembledSource(contents: seq<char>): string {
    FragPreamble() + CString(contents)
  }

  /** A prefix free of NUL that is followed by a NUL (or ends the buffer) is
      the C string of the buffer. */
  lemma {:induction false} CStringIs(buf: seq<char>, s: seq<char>)
    requires s <= buf && NUL !in s
    requires |s| < |buf| ==> buf[|s|] == NUL
    ensures CString(buf) == s
  {
    if s != [] {
      assert buf[0] == s[0];
      CStringIs(buf[1..], s[1..]);
    } else if buf != [] {
      assert buf[0] == NUL;
    }
  }

  /** A buffer that holds a NUL is longer than its C string. */
  lemma {:induction false} CStringShorter(buf: seq<char>)
    requires NUL in buf
    ensures |CString(buf)| < |buf|
  {
    if buf[0] != NUL {
      CStringShorter(buf[1..]);
    }
  }

  /** Writing a NUL at index `length` bounds the C string by `length`: the
      sentinel of shaderun.c:51 stops a `strcat` of the buffer in time. */
  lemma SentinelBound(contents: seq<char>)
    ensures CString(contents + [NUL]) == CString(contents)
    ensures |CString(contents)| <= |contents|
  {
    CStringIs(contents + [NUL], CString(contents));
  }

  /** A file without NUL bytes is assembled whole after the preamble. */
  lemma AssembledWholeFile(contents: seq<char>)
    requires NUL !in contents
    ensures AssembledSource(contents) == FragPreamble() + contents
  {
    CStringIs(contents, contents);
  }

  /** A file with a NUL byte is assembled only up to its first NUL. */
  lemma AssembledUpToNul(contents: seq<char>, k: nat)
    requires k < |contents| && contents[k] == NUL
    requires NUL !in contents[..k]
    ensures AssembledSource(contents) == FragPreamble() + contents[..k]
  {
    CStringIs(contents, contents[..k]);
  }

  /** The assembled text is itself a C string: it holds no NUL. */
  lemma AssembledHasNoNul(contents: seq<char>)
    ensures NUL !in AssembledSource(contents)
  {
    PreambleHasNoNul();
  }

  /** `strlen`: the index of the first NUL of a buffer that holds one. */
  method StrLen(a: array<char>) returns (n: nat)
    requires NUL in a[..]
    ensures n < a.Length && a[n] == NUL
    ensures forall j :: 0 <= j < n ==> a[j] != NUL
    ensures n == |CString(a[..])|
  {
    n := 0;
    while a[n] != NUL
      invariant n < a.Length
      invariant forall j :: 0 <= j < n ==> a[j] != NUL
      decreases a.Length - n
    {
      if n + 1 == a.Length {
        ghost var k :| 0 <= k < a.Length && a[k] == NUL;
        assert false;
      }
      n := n + 1;
    }
    CStringIs(a[..], a[..n]);
  }

  /** Copies the C string of `src`, with its NUL, into `dst` from index `at`
      on; the rest of `dst` is left as it was.  This is the copy loop of both
      `strcpy` and `strcat`. */
  method CopyString(dst: array<char>, at: nat, src: array<char>)
    requires dst != src
    requires NUL in src[..]
    requires at + |CString(src[..])| < dst.Length
    modifies dst
    ensures dst[..] == old(dst[..at]) + CString(src[..]) + [NUL]
                       + old(dst[at + |CString(src[..])| + 1..])
  {
    ghost var s := CString(src[..]);
    ghost var before := dst[..];
    CStringShorter(src[..]);
    assert src[|s|] == NUL;
    assert forall j :: 0 <= j < |s| ==> src[j] == s[j];
    var i := 0;
    while src[i] != NUL
      invariant i <= |s|
      invariant forall j :: 0 <= j < at ==> dst[j] == before[j]
      invariant forall j :: 0 <= j < i ==> dst[at + j] == s[j]
      invariant forall j :: at + i <= j < dst.Length ==> dst[j] == before[j]
      decreases |s| - i
    {
      dst[at + i] := src[i];
      i := i + 1;
    }
    dst[at + i] := NUL;
    assert dst[..] == before[..at] + s + [NUL] + before[at + |s| + 1..];
  }

  /** `strcpy(dst, src)`: `dst` must have room for the string and its NUL. */
  method StrCpy(dst: array<char>, src: array<char>)
    requires dst != src
    requires NUL in src[..]
    requires |CString(src[..])| < dst.Length
    modifies dst
    ensures dst[..] == CString(src[..]) + [NUL] + old(dst[|CString(src[..])| + 1..])
  {
    CopyString(dst, 0, src);
  }

  /** `strcat(dst, src)`: appends the C string of `src` where the C string of
      `dst` ends; `dst` must have room for both strings and one NUL. */
  method StrCat(dst: array<char>, src: array<char>)
    requires dst != src
    requires NUL in dst[..] && NUL in src[..]
    requires |CString(dst[..])| + |CString(src[..])| < dst.Length
    modifies dst
    ensures dst[..] == CString(old(dst[..])) + CString(src[..]) + [NUL]
                       + old(dst[|CString(dst[..])| + |CString(src[..])| + 1..])
  {
    var n := StrLen(dst);
    assert dst[..n] == CString(dst[..]);
    CopyString(dst, n, src);
  }

  /** The string literal `frag_preamble` as the NUL-terminated array a C
      compiler lays out for it. */
  method PreambleLiteral() returns (a: array<char>)
    ensures fresh(a)
    ensures a[..] == FragPreamble() + [NUL]
  {
    var text := FragPreamble();
    a := new char[|text| + 1](i => if 0 <= i < |text| then text[i] else NUL);
    assert a[..] == text + [NUL];
  }

  /** `gen_frag_src` with the file read abstracted to its contents.  The
      result buffer is exactly `strlen(frag_preamble) + length + 1` long, is
      never written past its end (the requires of StrCpy and StrCat hold),
      and holds the preamble, the file up to its first NUL, and a NUL. */
  method GenFragSrc(contents: seq<char>) returns (full: array<char>)
    ensures fresh(full)
    ensures full.Length == |FragPreamble()| + |contents| + 1
    ensures full[..|AssembledSource(contents)| + 1] == AssembledSource(contents) + [NUL]
    ensures CString(full[..]) == AssembledSource(contents)
  {
    var length := |contents|;
    // malloc(length + 1); frag_src[length] = '\0'; fread(frag_src, 1, length, f)
    var fragSrc := new char[length + 1];
    fragSrc[length] := NUL;
    forall i | 0 <= i < length {
      fragSrc[i] := contents[i];
    }
    assert fragSrc[..] == contents + [NUL];
    SentinelBound(contents);

    var preamble := PreambleLiteral();
    PreambleHasNoNul();
    CStringIs(preamble[..], FragPreamble());
    var preambleLength := StrLen(preamble);

    // malloc(strlen(frag_preamble) + length + 1); strcpy; strcat
    full := new char[preambleLength + length + 1];
    StrCpy(full, preamble);
    CStringIs(full[..], FragPreamble());
    StrCat(full, fragSrc);

    ghost var text := AssembledSource(contents);
    assert full[..|text| + 1] == text + [NUL];
    AssembledHasNoNul(contents);
    CStringIs(full[..], text);
  }
}
