/** A file opened for binary reading: its bytes and the read cursor that `read`, `tell` and `seek` move. */
module FileObjects {
  import opened Basics
  import opened Chunking

  class FileObject {
    /** The bytes of the file; the model assumes nobody changes the file while it is open. */
    const content: Bytes
    var pos: nat
    var closed: bool

    ghost predicate Valid()
      reads this
    {
      pos <= |content|
    }

    constructor Open(content: Bytes)
      ensures Valid() && this.content == content && pos == 0 && !closed
    {
      this.content := content;
      pos := 0;
      closed := false;
    }

    /** `read(n)`: up to `n` bytes from the cursor (all of them when `n` is negative); empty at end of file. */
    method Read(n: int) returns (buf: Bytes)
      requires Valid() && !closed
      modifies this
      ensures Valid() && !closed
      ensures buf == old(content[pos..pos + ReadLen(|content| - pos, n)])
      ensures pos == old(pos) + |buf|
    {
      var k := ReadLen(|content| - pos, n);
      buf := content[pos..pos + k];
      pos := pos + k;
    }

    /** `read()`: everything from the cursor to the end. */
    method ReadAll() returns (buf: Bytes)
      requires Valid() && !closed
      modifies this
      ensures Valid() && !closed
      ensures buf == old(content[pos..]) && pos == |content|
    {
      buf := Read(-1);
    }

    /** `tell()` */
    function Tell(): (offset: nat)
      reads this
      requires Valid()
      ensures offset <= |content|
    {
      pos
    }

    /** `seek(0)` */
    method Rewind()
      requires Valid() && !closed
      modifies this
      ensures Valid() && !closed && pos == 0
    {
      pos := 0;
    }

    /** `close()` */
    method Close()
      requires Valid()
      modifies this
      ensures Valid() && closed && pos == old(pos)
    {
      closed := true;
    }
  }
}
