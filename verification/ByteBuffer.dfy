/**
  buffer.c: a byte array with a read and a write index, compacted when it runs empty.
*/
module ByteBuffer {

  /** uint8_t. */
  type byte = b: int | 0 <= b < 256

  class Buffer {
    const data: array<byte>
    const limit: nat
    var read: nat
    var write: nat

    /** Besides the order of the indices, an empty buffer has both at the start of the array. */
    ghost predicate Valid()
      reads this
    {
      read <= write <= limit <= data.Length && (read == write ==> write == 0)
    }

    /** The bytes written and not yet read, oldest first. */
    ghost function Contents(): seq<byte>
      reads this, data
      requires Valid()
    {
      data[read..write]
    }

    /** buffer_init. */
    constructor (data: array<byte>, n: nat)
      requires n <= data.Length
      ensures Valid() && this.data == data && limit == n && Contents() == []
    {
      this.data := data;
      limit := n;
      read, write := 0, 0;
    }

    /** buffer_reset. */
    method Reset()
      requires limit <= data.Length
      modifies this
      ensures Valid() && Contents() == []
    {
      read, write := 0, 0;
    }

    predicate CanWrite()
      reads this
    {
      limit - write > 0
    }

    predicate CanRead()
      reads this
    {
      write - read > 0
    }

    /** buffer_write_adv: the bytes just stored beyond the write index become content. */
    method WriteAdv(bytes: int)
      requires Valid() && write + bytes <= limit
      modifies this
      ensures Valid()
      ensures Contents() == old(Contents()) + old(data[write..if bytes > -1 then write + bytes else write])
      ensures write == if bytes > -1 then old(write) + bytes else old(write)
    {
      if bytes > -1 {
        write := write + bytes;
      }
    }

    /** buffer_read_adv: drops the oldest bytes, and compacts for free when none is left. */
    method ReadAdv(bytes: int)
      requires Valid() && read + bytes <= write
      modifies this, data
      ensures Valid()
      ensures Contents() == if bytes > -1 then old(Contents())[bytes..] else old(Contents())
      ensures data[..] == old(data[..])
    {
      if bytes > -1 {
        read := read + bytes;
        if read == write {
          Compact();
        }
      }
    }

    /** buffer_compact: moves what is pending to the start of the array. */
    method Compact()
      requires read <= write <= limit <= data.Length
      modifies this, data
      ensures Valid() && read == 0
      ensures Contents() == old(data[read..write])
      ensures old(read) == old(write) ==> data[..] == old(data[..])
    {
      if read == 0 {
      } else if read == write {
        read, write := 0, 0;
      } else {
        var n := write - read;
        forall i | 0 <= i < n {
          data[i] := data[read + i];
        }
        read, write := 0, n;
      }
    }

    /** buffer_read: one byte, or 0 if there is none. */
    method ReadByte() returns (b: byte)
      requires Valid()
      modifies this, data
      ensures Valid()
      ensures if old(CanRead()) then [b] + Contents() == old(Contents()) else b == 0 && Contents() == []
      ensures data[..] == old(data[..])
    {
      if CanRead() {
        b := data[read];
        ReadAdv(1);
      } else {
        b := 0;
      }
    }

    /** buffer_write: one byte, dropped if there is no room. */
    method WriteByte(b: byte)
      requires Valid()
      modifies this, data
      ensures Valid()
      ensures Contents() == if old(CanWrite()) then old(Contents()) + [b] else old(Contents())
      ensures write == if old(CanWrite()) then old(write) + 1 else old(write)
    {
      if CanWrite() {
        data[write] := b;
        WriteAdv(1);
      }
    }
  }
}
