/**
  Byte streams as the relay sees a message body: an input stream read one
  byte at a time, a copy through a stream capped at a number of bytes
  (Guava's copy(limit(is, n), os)), and a read to the end of the stream
  (Guava's toByteArray(is)).
 */
module Streams {

  newtype byte = x: int | 0 <= x < 256

  /** The first n bytes of s, or all of s when it is shorter. */
  function Take(s: seq<byte>, n: nat): (r: seq<byte>)
    ensures |r| == if n < |s| then n else |s|
    ensures r <= s
  {
    if n < |s| then s[..n] else s
  }

  /** What is left of s once its first n bytes are taken. */
  function Drop(s: seq<byte>, n: nat): (r: seq<byte>)
    ensures Take(s, n) + r == s
    ensures r == [] <==> |s| <= n
  {
    if n < |s| then s[n..] else []
  }

  /**
    A split of s into a front and a back is the split at n when the front
    has n bytes, or when it is all of s and no longer than n.
   */
  lemma SplitAt(s: seq<byte>, front: seq<byte>, back: seq<byte>, n: nat)
    requires front + back == s
    requires |front| == n || (back == [] && |front| <= n)
    ensures front == Take(s, n) && back == Drop(s, n)
  {
    if |front| == n {
      assert front == s[..n] && back == s[n..];
    }
  }

  /** What one InputStream.read() does: return the next byte, return -1 at the end of the stream, or throw an IOException. */
  datatype ReadResult = NextByte(value: byte) | EndOfStream | ReadFailure

  /**
    A readable stream over a fixed body; pos counts the bytes already read.
    When fails holds, the source breaks after the body: every read past the
    last byte throws an IOException instead of returning -1.
   */
  class InputStream {
    const data: seq<byte>
    const fails: bool
    var pos: nat

    ghost predicate Valid()
      reads this
    {
      pos <= |data|
    }

    /** The bytes that later reads will return, in order. */
    function Remaining(): (r: seq<byte>)
      reads this
      requires Valid()
      ensures |r| == |data| - pos
    {
      data[pos..]
    }

    constructor (data: seq<byte>, fails: bool)
      ensures Valid() && this.data == data && this.fails == fails && Remaining() == data
    {
      this.data := data;
      this.fails := fails;
      pos := 0;
    }

    /** InputStream.read(): the next byte, or, past the last one, -1 or an IOException. */
    method Read() returns (r: ReadResult)
      requires Valid()
      modifies this
      ensures Valid()
      ensures old(Remaining()) == [] ==> r == (if fails then ReadFailure else EndOfStream) && Remaining() == []
      ensures old(Remaining()) != [] ==> r == NextByte(old(Remaining())[0]) && Remaining() == old(Remaining())[1..]
    {
      if pos == |data| {
        r := if fails then ReadFailure else EndOfStream;
      } else {
        r := NextByte(data[pos]);
        pos := pos + 1;
      }
    }
  }

  /**
    copy(limit(src, limit), os): the limited stream ends after limit bytes or at
    the end of src, whichever comes first; copy moves everything it yields.
    Returns the bytes os received, and whether a read threw, which happens
    when src breaks before limit bytes.
   */
  method CopyLimited(src: InputStream, limit: nat) returns (copied: seq<byte>, failed: bool)
    requires src.Valid()
    modifies src
    ensures src.Valid()
    ensures copied == Take(old(src.Remaining()), limit)
    ensures src.Remaining() == Drop(old(src.Remaining()), limit)
    ensures failed <==> src.fails && |old(src.Remaining())| < limit
  {
    ghost var input := src.Remaining();
    copied := [];
    failed := false;
    var left := limit;
    while left > 0
      invariant src.Valid()
      invariant copied + src.Remaining() == input
      invariant |copied| + left == limit
      invariant !failed
      decreases left
    {
      var r := src.Read();
      if !r.NextByte? {
        failed := r.ReadFailure?;
        break;
      }
      copied := copied + [r.value];
      left := left - 1;
    }
    SplitAt(input, copied, src.Remaining(), limit);
  }

  /** toByteArray(src): every byte up to the end of the stream, with no limit; it throws if src breaks there. */
  method ToByteArray(src: InputStream) returns (bytes: seq<byte>, failed: bool)
    requires src.Valid()
    modifies src
    ensures src.Valid()
    ensures bytes == old(src.Remaining()) && src.Remaining() == []
    ensures failed == src.fails
  {
    ghost var input := src.Remaining();
    bytes := [];
    while true
      invariant src.Valid()
      invariant bytes + src.Remaining() == input
      decreases |src.Remaining()|
    {
      var r := src.Read();
      if !r.NextByte? {
        failed := r.ReadFailure?;
        break;
      }
      bytes := bytes + [r.value];
    }
  }
}
