/** How a session's memory size travels: kilobytes in the record, a negative number on the wire
    when the session is swapped back in, bytes in the shared memory segment. */
module MemorySize {
  import opened Bytes

  /** memory_size *= -1, on a 32-bit int. */
  function Negate(m: int32): (r: int32) { Wrap32(-(m as int)) }

  /** A segment is filled from storage when the size on the wire is negative. */
  predicate SwapsIn(wire: int32) { wire < 0 }

  /** The byte count computed before ftruncate and mmap, on a 32-bit int. */
  function SegmentBytes(wire: int32): (r: int32) {
    Wrap32(Wrap32(if SwapsIn(wire) then -(wire as int) else wire) * 1024)
  }

  /** Creation and every later swap-in map the same positive byte count, and only the swap-in reads
      storage, exactly for sizes of 1 to 2097151 kB. */
  lemma SizePreservedIff(m: int32)
    ensures
      (&& SegmentBytes(m) == m * 1024 == SegmentBytes(Negate(m))
       && SegmentBytes(m) > 0
       && !SwapsIn(m) && SwapsIn(Negate(m)))
      <==> 1 <= m <= 2097151
  {
    if m > 2097151 {
      assert m * 1024 >= 0x8000_0000;
    } else if m >= 1 {
      assert m * 1024 < 0x8000_0000;
    }
  }
}
