/** `ase_string_buffer`: a growing byte buffer; `size` is `buf_end - bufalloc`. */
module StringBuffer {
  import opened Bytes

  const ALLOC_SIZE_MIN: nat := 32

  class Buffer {
    var data: array<byte>
    var size: nat

    /** The pointer invariant checked by `assert_valid`. */
    ghost predicate Valid()
      reads this
    {
      size <= data.Length
    }

    ghost function Contents(): seq<byte>
      requires Valid()
      reads this, data
    {
      data[..size]
    }

    constructor (initialAllocSize: nat)
      ensures Valid() && fresh(data) && Contents() == []
      ensures data.Length == if initialAllocSize > ALLOC_SIZE_MIN then initialAllocSize else ALLOC_SIZE_MIN
    {
      data := new byte[if initialAllocSize > ALLOC_SIZE_MIN then initialAllocSize else ALLOC_SIZE_MIN];
      size := 0;
    }

    /** Room for `len` more bytes; the allocation grows to exactly what is needed. */
    method MakeSpace(len: nat)
      requires Valid()
      modifies this`data
      ensures Valid() && size + len <= data.Length
      ensures Contents() == old(Contents())
      ensures if old(size + len <= data.Length) then data == old(data)
              else fresh(data) && data.Length == size + len
    {
      if size + len <= data.Length {
        return;
      }
      var n := new byte[size + len];
      forall i | 0 <= i < size {
        n[i] := data[i];
      }
      data := n;
    }

    method AppendDone(written: nat)
      requires Valid() && size + written <= data.Length
      modifies this`size
      ensures Valid() && size == old(size) + written
      ensures Contents() == old(data[..size + written])
    {
      size := size + written;
    }

    /** Appending is concatenation, and touches no other array. */
    method Append(str: seq<byte>)
      requires Valid()
      modifies this, data
      ensures Valid() && Contents() == old(Contents()) + str
      ensures data == old(data) || fresh(data)
    {
      MakeSpace(|str|);
      forall i | 0 <= i < |str| {
        data[size + i] := str[i];
      }
      ghost var before := old(Contents());
      AppendDone(|str|);
      assert Contents()[..|before|] == before;
      assert Contents()[|before|..] == str;
    }
  }
}
