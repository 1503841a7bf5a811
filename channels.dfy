/**
 * The two kernel channels of the program, as byte queues. `Pipe` is
 * `myPipe` (task.cpp:296-356), the anonymous pipe that carries the command;
 * `Fifo` is `myFifo` (task.cpp:363-410), the named FIFO `size.fifo` that
 * carries the command's length as decimal text. In each, `queued` is what
 * the kernel holds: bytes written and not yet read, oldest first. A write
 * appends to it and a read removes from its front. Each `char` here stands
 * for one C++ `char`, one byte.
 */
module Channels {
  import opened Basics

  class Pipe {
    var queued: seq<char>

    /** `myPipe()`: a new, empty pipe. */
    constructor ()
      ensures queued == []
    {
      queued := [];
    }

    /** `write_data(data, size)`: the first `size` bytes of the buffer go into the pipe. */
    method WriteData(data: array<char>, size: nat) returns (written: int)
      requires size <= data.Length
      modifies this
      ensures queued == old(queued) + data[..size]
      ensures written == size
    {
      queued := queued + data[..size];
      written := size;
    }

    /**
     * `write_data_from_str(data, size)`: copies the string into a buffer of
     * `size` bytes and writes the whole buffer. The source's buffer holds
     * `size` bytes and the copy writes `data.size()` of them, so callers
     * pass `size >= data.size()`; bytes past the string are not specified.
     */
    method WriteDataFromStr(data: string, size: nat) returns (written: int)
      requires |data| <= size
      modifies this
      ensures |queued| == |old(queued)| + size
      ensures queued[..|old(queued)|] == old(queued)
      ensures queued[|old(queued)|..|old(queued)| + |data|] == data
      ensures size == |data| ==> queued == old(queued) + data
      ensures written == size
    {
      var buff := new char[size];
      for i := 0 to |data|
        modifies buff
        invariant buff[..i] == data[..i]
      {
        buff[i] := data[i];
      }
      assert data[..|data|] == data;
      assert buff[..size][..|data|] == buff[..|data|];
      written := WriteData(buff, size);
    }

    /**
     * `read_data(data, size)`: takes up to `size` bytes from the front of
     * the pipe into the buffer and returns how many it took.
     */
    method ReadData(data: array<char>, size: nat) returns (got: nat)
      requires size <= data.Length
      modifies this, data
      ensures got == Min(size, |old(queued)|)
      ensures data[..got] == old(queued)[..got]
      ensures data[got..] == old(data[got..])
      ensures queued == old(queued)[got..]
    {
      got := Min(size, |queued|);
      forall i | 0 <= i < got {
        data[i] := queued[i];
      }
      queued := queued[got..];
    }
  }

  class Fifo {
    var queued: seq<char>

    /** `myFifo(fileName)`: creates and opens the FIFO, empty. */
    constructor ()
      ensures queued == []
    {
      queued := [];
    }

    /** `write_data(data)`: the buffer's bytes go into the FIFO. */
    method WriteData(data: array<char>) returns (written: int)
      modifies this
      ensures queued == old(queued) + data[..]
      ensures written == data.Length
    {
      queued := queued + data[..];
      written := data.Length;
    }

    /** `write_data_from_str(data)`: copies the string into a buffer of its own size and writes it. */
    method WriteDataFromStr(data: string) returns (written: int)
      modifies this
      ensures queued == old(queued) + data
      ensures written == |data|
    {
      var buff := new char[|data|];
      for i := 0 to |data|
        modifies buff
        invariant buff[..i] == data[..i]
      {
        buff[i] := data[i];
      }
      assert buff[..] == data;
      written := WriteData(buff);
    }

    /** `read_data(data)`: takes up to the buffer's length of bytes from the front of the FIFO. */
    method ReadData(data: array<char>) returns (got: nat)
      modifies this, data
      ensures got == Min(data.Length, |old(queued)|)
      ensures data[..got] == old(queued)[..got]
      ensures data[got..] == old(data[got..])
      ensures queued == old(queued)[got..]
    {
      got := Min(data.Length, |queued|);
      forall i | 0 <= i < got {
        data[i] := queued[i];
      }
      queued := queued[got..];
    }
  }
}
