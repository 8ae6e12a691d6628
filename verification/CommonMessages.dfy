/** The control plane's half of the wire format (system/common/messages.cpp): requests of 39 bytes that it
    fills in, headers of 24 bytes that it parses. */
module CommonMessages {
  import opened Bytes
  import opened Wire

  const PROCESS_ALLOCATION: int16 := 11
  const SESSION_ALLOCATION: int16 := 12
  const FUNCTION_INVOCATION: int16 := 13
  const REQUEST_LENGTH: nat := 39

  const CLIENT: int16 := 0
  const PROCESS: int16 := 1
  const SESSION: int16 := 2
  const SESSION_STATUS: int16 := 3
  const HEADER_LENGTH: nat := 24

  /** A parsed header with what its accessors read; ids are always 16 raw bytes. */
  datatype Message =
    | ClientMessage
    | ProcessMessage(processId: Text)
    | SessionMessage(sessionId: Text)
    | SessionStatusMessage(memorySize: int32, sessionStatus: int16, session: Text)

  function Parse(data: seq<byte>): (r: Option<Message>)
    requires |data| == HEADER_LENGTH
  {
    var kind := Int16(data[0..2]);
    if kind == CLIENT then Some(ClientMessage)
    else if kind == PROCESS then Some(ProcessMessage(data[2..18]))
    else if kind == SESSION then Some(SessionMessage(data[2..18]))
    else if kind == SESSION_STATUS then
      Some(SessionStatusMessage(Int32(data[2..6]), Int16(data[6..8]), data[8..24]))
    else None
  }

  function FillSessionRequest(d: seq<byte>, id: Text, maxFunctions: int32, memory: int32): (d': seq<byte>)
    requires |d| == REQUEST_LENGTH
    ensures |d'| == |d|
  {
    Splice(Splice(Splice(Splice(d, 0, Le16(SESSION_ALLOCATION)), 2, Le32(maxFunctions)), 6, Le32(memory)), 10,
           StrNCpy(id, 16))
  }

  function FillProcessRequest(d: seq<byte>, sessions: int16, port: int32, ip: Text, id: Text): (d': seq<byte>)
    requires |d| == REQUEST_LENGTH
    ensures |d'| == |d|
  {
    Splice(Splice(Splice(Splice(Splice(d, 0, Le16(PROCESS_ALLOCATION)), 2, Le16(sessions)), 4, Le32(port)), 8,
                  StrNCpy(ip, 15)), 23, StrNCpy(id, 16))
  }

  /** The payload size has four bytes in the layout but only two are written. */
  function FillFunctionRequest(d: seq<byte>, name: Text, id: Text, payloadSize: int32): (d': seq<byte>)
    requires |d| == REQUEST_LENGTH
    ensures |d'| == |d|
  {
    Splice(Splice(Splice(Splice(d, 0, Le16(FUNCTION_INVOCATION)), 2, Le16(payloadSize)), 6, StrNCpy(name, 16)), 22,
           StrNCpy(id, 16))
  }

  /** A Request object, reused for every message of a loop. */
  class Request {
    const data: array<byte>

    constructor ()
      ensures fresh(data) && data.Length == REQUEST_LENGTH && data[..] == Zeros(REQUEST_LENGTH)
    {
      data := new byte[REQUEST_LENGTH](_ => 0);
      new;
    }

    method FillSession(id: Text, maxFunctions: int32, memory: int32)
      requires data.Length == REQUEST_LENGTH
      modifies data
      ensures data[..] == FillSessionRequest(old(data[..]), id, maxFunctions, memory)
    {
      hide Splice, StrNCpy, Le16, Le32;
      Put(data, 0, Le16(SESSION_ALLOCATION));
      Put(data, 2, Le32(maxFunctions));
      Put(data, 6, Le32(memory));
      PutText(data, 10, id, 16);
    }

    method FillProcess(sessions: int16, port: int32, ip: Text, id: Text)
      requires data.Length == REQUEST_LENGTH
      modifies data
      ensures data[..] == FillProcessRequest(old(data[..]), sessions, port, ip, id)
    {
      hide Splice, StrNCpy, Le16, Le32;
      Put(data, 0, Le16(PROCESS_ALLOCATION));
      Put(data, 2, Le16(sessions));
      Put(data, 4, Le32(port));
      PutText(data, 8, ip, 15);
      PutText(data, 23, id, 16);
    }

    method FillFunction(name: Text, id: Text, payloadSize: int32)
      requires data.Length == REQUEST_LENGTH
      modifies data
      ensures data[..] == FillFunctionRequest(old(data[..]), name, id, payloadSize)
    {
      hide Splice, StrNCpy, Le16, Le32;
      Put(data, 0, Le16(FUNCTION_INVOCATION));
      Put(data, 2, Le16(payloadSize));
      PutText(data, 6, name, 16);
      PutText(data, 22, id, 16);
    }
  }

  /** A process request reads back through the accessors of the same class, whatever the buffer held. */
  lemma ProcessRequestReads(d: seq<byte>, sessions: int16, port: int32, ip: Text, id: Text)
    requires |d| == REQUEST_LENGTH
    ensures
      var d' := FillProcessRequest(d, sessions, port, ip, id);
      && Int16(d'[0..2]) == PROCESS_ALLOCATION && Int16(d'[2..4]) == sessions && Int32(d'[4..8]) == port
      && d'[8..23] == StrNCpy(ip, 15) && d'[23..39] == StrNCpy(id, 16)
  {
    var d1 := Splice(d, 0, Le16(PROCESS_ALLOCATION));
    var d2 := Splice(d1, 2, Le16(sessions));
    var d3 := Splice(d2, 4, Le32(port));
    var d4 := Splice(d3, 8, StrNCpy(ip, 15));
    SpliceReads(d, 0, Le16(PROCESS_ALLOCATION));
    SpliceReads(d1, 2, Le16(sessions));
    SpliceReads(d2, 4, Le32(port));
    SpliceReads(d3, 8, StrNCpy(ip, 15));
    SpliceReads(d4, 23, StrNCpy(id, 16));
    hide Splice, StrNCpy, Le16, Le32, Int16, Int32;
    Le16RoundTrip(PROCESS_ALLOCATION);
    Le16RoundTrip(sessions);
    Le32RoundTrip(port);
  }
}
