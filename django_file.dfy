/** The content stream handed to `_save`: an in-memory Django `File` with a
    read position. */
module DjangoFile {

  type byte = bv8

  function Min(a: nat, b: nat): nat
  {
    if a <= b then a else b
  }

  class Content {
    /** The bytes of the file; `content.size` is their number. */
    const data: seq<byte>
    /** The read position, as `content.tell()` reports it. */
    var pos: nat
    var closed: bool

    ghost predicate Valid()
      reads this
    {
      pos <= |data|
    }

    function Size(): nat
    {
      |data|
    }

    constructor (data: seq<byte>)
      ensures this.data == data && pos == 0 && closed && Valid()
    {
      this.data := data;
      pos := 0;
      closed := true;
    }

    /** `File.open()`: (re)opens the file positioned at its start. */
    method Open()
      modifies this
      ensures !closed && pos == 0 && Valid()
    {
      closed := false;
      pos := 0;
    }

    /** `content.tell()`. */
    function Tell(): (p: nat)
      reads this
      requires Valid()
      ensures p <= Size()
    {
      pos
    }

    /** `content.read(n)`: at most `n` bytes from the position, which moves
        past them. */
    method Read(n: nat) returns (chunk: seq<byte>)
      requires Valid() && !closed
      modifies this`pos
      ensures Valid()
      ensures pos == Min(old(pos) + n, |data|)
      ensures chunk == data[old(pos)..pos]
      ensures |chunk| <= n
    {
      var end := Min(pos + n, |data|);
      chunk := data[pos..end];
      pos := end;
    }

    /** `content.read()`: every byte from the position to the end. */
    method ReadAll() returns (chunk: seq<byte>)
      requires Valid() && !closed
      modifies this`pos
      ensures Valid()
      ensures pos == |data| && chunk == data[old(pos)..]
    {
      chunk := data[pos..];
      pos := |data|;
    }

    method Close()
      modifies this`closed
      ensures closed
    {
      closed := true;
    }
  }
}
