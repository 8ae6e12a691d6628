/** The messages of the local memory: a header of 38 bytes with a type, a payload size and an object name, and
    the payload after it. One request of a client, one reply of a worker. */
module MemoryMessages {
  import opened Bytes
  import opened Wire
  import W = Wire
  import opened MemoryOps

  const UNKNOWN: int16 := -1
  const CREATE: int16 := 100
  const GET: int16 := 101
  const PUT: int16 := 102
  const DELETE: int16 := 103
  const CREATE_REPLY: int16 := 104
  const DELETE_REPLY: int16 := 107
  const REPLY_OFFSET := CREATE_REPLY - CREATE
  const BUF_SIZE: nat := 38

  function ReplyType(kind: int16): (r: int16) { Wrap16(kind + REPLY_OFFSET) }

  function Fill(d: seq<byte>, kind: int16, name: Text, payload: int32): (d': seq<byte>)
    requires |d| == BUF_SIZE
    ensures |d'| == |d|
  {
    Splice(Splice(Splice(d, 0, Le16(kind)), 2, Le32(payload)), 6, StrNCpy(name, NAME_SIZE))
  }

  function ParseType(d: seq<byte>): (r: int16)
    requires |d| == BUF_SIZE
  {
    var kind := Int16(d[0..2]);
    if CREATE <= kind <= DELETE_REPLY then kind else UNKNOWN
  }

  function Payload(d: seq<byte>): (r: int32)
    requires |d| == BUF_SIZE
  {
    Int32(d[2..6])
  }

  predicate IsError(d: seq<byte>)
    requires |d| == BUF_SIZE
  {
    Payload(d) < 0
  }

  function ObjectName(d: seq<byte>): (r: Text)
    requires |d| == BUF_SIZE
  {
    FieldText(d[6..38])
  }

  /** Every byte is written, so the buffer's past does not matter; the name comes back as far as it fits. */
  lemma MessageReads(d: seq<byte>, kind: int16, name: Text, payload: int32)
    requires |d| == BUF_SIZE
    ensures
      var d' := Fill(d, kind, name, payload);
      && ParseType(d') == (if CREATE <= kind <= DELETE_REPLY then kind else UNKNOWN)
      && Payload(d') == payload && ObjectName(d') == Kept(name, NAME_SIZE)
    ensures forall e: seq<byte> :: |e| == BUF_SIZE ==> Fill(e, kind, name, payload) == Fill(d, kind, name, payload)
  {
    FillIs(d, kind, name, payload);
    FieldRoundTrip(name, NAME_SIZE);
    Le16RoundTrip(kind);
    Le32RoundTrip(payload);
    var head, size, text := Le16(kind), Le32(payload), StrNCpy(name, NAME_SIZE);
    assert (head + size + text)[0..2] == head;
    assert (head + size + text)[2..6] == size;
    assert (head + size + text)[6..38] == text;
    forall e: seq<byte> | |e| == BUF_SIZE ensures Fill(e, kind, name, payload) == Fill(d, kind, name, payload) {
      FillIs(e, kind, name, payload);
    }
    hide Fill, Le16, Le32, StrNCpy, Int16, Int32, Kept, FieldText;
  }

  lemma FillIs(d: seq<byte>, kind: int16, name: Text, payload: int32)
    requires |d| == BUF_SIZE
    ensures Fill(d, kind, name, payload) == Le16(kind) + Le32(payload) + StrNCpy(name, NAME_SIZE)
  {
    hide Le16, Le32, StrNCpy;
  }

  class SessionMessage {
    const buffer: array<byte>

    constructor ()
      ensures fresh(buffer) && buffer.Length == BUF_SIZE
    {
      buffer := new byte[BUF_SIZE];
    }

    method Send(kind: int16, name: Text, payload: int32)
      requires buffer.Length == BUF_SIZE
      modifies buffer
      ensures buffer[..] == Fill(old(buffer[..]), kind, name, payload)
    {
      hide Splice, StrNCpy, Le16, Le32;
      W.Put(buffer, 0, Le16(kind));
      W.Put(buffer, 2, Le32(payload));
      PutText(buffer, 6, name, NAME_SIZE);
    }
  }
}
