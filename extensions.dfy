/** Writing an encoded SeString into the game's fixed-size string buffer
    (`WriteSeString`, FCNameColor/Utils/Extensions.cs). The Utf8String is a
    struct passed by value: the buffer it points to is shared with the
    caller, its BufUsed counter is the callee's own copy. SeString encoding is
    a foreign library; the encoded bytes are the input. */
module Extensions {

  type byte = bv8

  /** The game's string header: a pointer to the buffer, the buffer's size and
      the count of bytes in use. */
  datatype Utf8String = Utf8String(stringPtr: array<byte>, bufSize: int, bufUsed: int)

  /** How many bytes fit: all of them, or one less than the buffer size to
      leave room for the terminator. */
  function CopiedCount(count: nat, bufSize: int): nat
    requires bufSize >= 1
  {
    if count < bufSize - 1 then count else bufSize - 1
  }

  /** The buffer after the write: the copied prefix of `bytes`, a NUL, and the
      old contents after it. */
  function Written(before: seq<byte>, bytes: seq<byte>, bufSize: int): (r: seq<byte>)
    requires 1 <= bufSize <= |before|
  {
    var n := CopiedCount(|bytes|, bufSize);
    bytes[..n] + [0] + before[n + 1..]
  }

  /** The write keeps the buffer's length, copies min(|bytes|, bufSize - 1)
      bytes in order, terminates them, and leaves every byte after the
      terminator alone, never touching memory past `bufSize`. */
  lemma WrittenSpec(before: seq<byte>, bytes: seq<byte>, bufSize: int)
    requires 1 <= bufSize <= |before|
    ensures var r := Written(before, bytes, bufSize);
      var n := CopiedCount(|bytes|, bufSize);
      && |r| == |before|
      && n <= |bytes| && n < bufSize
      && (n == |bytes| || n == bufSize - 1)
      && (forall i :: 0 <= i < n ==> r[i] == bytes[i])
      && r[n] == 0
      && (forall i :: n < i < |r| ==> r[i] == before[i])
  {
  }

  /** Writing the same bytes twice gives what writing once gives. */
  lemma WrittenIdempotent(before: seq<byte>, bytes: seq<byte>, bufSize: int)
    requires 1 <= bufSize <= |before|
    ensures Written(Written(before, bytes, bufSize), bytes, bufSize) == Written(before, bytes, bufSize)
  {
    var n := CopiedCount(|bytes|, bufSize);
    var once := Written(before, bytes, bufSize);
    assert once[n + 1..] == before[n + 1..];
  }

  /** The public entry point: writes the encoded string into the buffer. */
  method SetSeString(utf8String: Utf8String, seString: seq<byte>)
    requires 1 <= utf8String.bufSize <= utf8String.stringPtr.Length
    modifies utf8String.stringPtr
    ensures utf8String.stringPtr[..] == Written(old(utf8String.stringPtr[..]), seString, utf8String.bufSize)
  {
    WriteSeString(utf8String, seString);
  }

  /** The copy loop. The buffer must have room for the terminator; the copy
      of the header whose BufUsed the loop counts is the callee's. */
  method WriteSeString(xivString: Utf8String, bytes: seq<byte>)
    requires 1 <= xivString.bufSize <= xivString.stringPtr.Length
    modifies xivString.stringPtr
    ensures xivString.stringPtr[..] == Written(old(xivString.stringPtr[..]), bytes, xivString.bufSize)
  {
    var s := xivString.(bufUsed := 0);
    var buf := s.stringPtr;
    var i := 0;
    while i < |bytes| && i < s.bufSize - 1
      invariant 0 <= i <= CopiedCount(|bytes|, xivString.bufSize)
      invariant s.stringPtr == buf && s.bufSize == xivString.bufSize && s.bufUsed == i
      invariant buf[..i] == bytes[..i]
      invariant buf[i..] == old(buf[..])[i..]
    {
      buf[i] := bytes[i];
      s := s.(bufUsed := s.bufUsed + 1);
      i := i + 1;
    }
    buf[i] := 0;
    assert buf[..] == buf[..i] + [buf[i]] + buf[i + 1..];
  }
}
