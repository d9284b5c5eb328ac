/** The growable response buffer: `struct string`, `init_string` (chatgpt.c:34-56) and the
    cURL write callback `writefunc` (chatgpt.c:73-87). */
module Buffers {

  /** A NUL-terminated heap buffer `ptr` of exactly `len + 1` characters. */
  class GrowableString {
    var ptr: array<char>
    var len: nat

    ghost predicate Valid()
      reads this, ptr
    {
      ptr.Length == len + 1 && ptr[len] == '\0'
    }

    /** The characters received so far. */
    ghost function Contents(): string
      reads this, ptr
      requires Valid()
    {
      ptr[..len]
    }

    /** Models `init_string`: an empty, terminated buffer. */
    constructor ()
      ensures Valid() && fresh(ptr)
      ensures Contents() == []
    {
      len := 0;
      var p := new char[1];
      p[0] := '\0';
      ptr := p;
    }

    /** Models `writefunc`: reallocate to the new length plus the terminator, copy the
        `size * nmemb` bytes of `data` after the old contents, terminate, and report the
        number of bytes taken. */
    method Write(data: seq<char>, size: nat, nmemb: nat) returns (written: nat)
      requires Valid()
      requires size * nmemb <= |data|
      modifies this
      ensures Valid() && fresh(ptr)
      ensures written == size * nmemb
      ensures Contents() == old(Contents()) + data[..size * nmemb]
    {
      var n := size * nmemb;
      var newLen := len + n;
      var grown := new char[newLen + 1];
      // realloc keeps the old contents
      var i := 0;
      while i < len
        invariant 0 <= i <= len
        modifies grown
        invariant forall k :: 0 <= k < i ==> grown[k] == ptr[k]
      {
        grown[i] := ptr[i];
        i := i + 1;
      }
      // chatgpt.c:82 copies the `size * nmemb` new bytes in after the old contents
      var k := 0;
      while k < n
        invariant 0 <= k <= n
        modifies grown
        invariant forall m :: 0 <= m < len ==> grown[m] == ptr[m]
        invariant forall m :: 0 <= m < k ==> grown[len + m] == data[m]
      {
        grown[len + k] := data[k];
        k := k + 1;
      }
      grown[newLen] := '\0';
      assert grown[..newLen] == ptr[..len] + data[..n];
      ptr := grown;
      len := newLen;
      written := n;
    }
  }

  /** The chunks in the order they arrived, with nothing between them. */
  function Flatten(chunks: seq<string>): string
  {
    if chunks == [] then "" else Flatten(chunks[..|chunks| - 1]) + chunks[|chunks| - 1]
  }

  /** Later chunks never disturb earlier ones: the text up to chunk `i` is the text before
      it followed by that chunk, and it stays a prefix of the whole. */
  lemma {:induction false} FlattenPrefix(chunks: seq<string>, i: nat)
    requires i < |chunks|
    ensures Flatten(chunks[..i + 1]) == Flatten(chunks[..i]) + chunks[i]
    ensures Flatten(chunks[..i + 1]) <= Flatten(chunks)
    decreases |chunks|
  {
    var n := |chunks| - 1;
    if i < n {
      FlattenPrefix(chunks[..n], i);
      assert chunks[..n][..i + 1] == chunks[..i + 1];
    } else {
      assert chunks[..i + 1] == chunks;
    }
    assert chunks[..i + 1][..i] == chunks[..i];
  }

  /** The response body as chatgpt.c:134-162 collects it: `init_string`, then one
      `writefunc(chunk, 1, |chunk|)` per chunk the transfer delivers, then the buffer's text. */
  method Collect(chunks: seq<string>) returns (body: string)
    ensures body == Flatten(chunks)
  {
    var output := new GrowableString();
    var i := 0;
    while i < |chunks|
      invariant 0 <= i <= |chunks|
      invariant output.Valid()
      invariant output.Contents() == Flatten(chunks[..i])
      modifies output
    {
      assert chunks[..i + 1][..i] == chunks[..i];
      var written := output.Write(chunks[i], 1, |chunks[i]|);
      assert chunks[i][..1 * |chunks[i]|] == chunks[i];
      i := i + 1;
    }
    assert chunks[..i] == chunks;
    body := output.ptr[..output.len];
  }
}
