/** The runtime's half of the wire format (runtime/lib/messages.cpp): headers of 24 bytes that it fills in,
    requests of 39 bytes that it parses. */
module RuntimeMessages {
  import opened Bytes
  import opened Wire

  const PROCESS_IDENTIFICATION: int16 := 1
  const SESSION_IDENTIFICATION: int16 := 2
  const SESSION_STATUS: int16 := 3
  const SEND_LENGTH: nat := 24

  const SESSION_REQUEST: int16 := 12
  const INVOCATION_REQUEST: int16 := 13
  const EXPECTED_LENGTH: nat := 39

  /** What the accessors of a received message read. */
  datatype Received =
    | SessionRequestMsg(sessionId: Text, maxFunctions: int32, memorySize: int32)
    | FunctionRequestMsg(functionName: Text, functionId: Text, payload: int32)

  /** `size` is the number of bytes read; anything but a whole message is refused. */
  function Parse(data: seq<byte>, size: int): (r: Option<Received>)
    requires |data| == EXPECTED_LENGTH
  {
    var kind := Int16(data[0..2]);
    if size != EXPECTED_LENGTH then None
    else if kind == SESSION_REQUEST then
      Some(SessionRequestMsg(data[10..26], Int32(data[2..6]), Int32(data[6..10])))
    else if kind == INVOCATION_REQUEST then
      Some(FunctionRequestMsg(FieldText(data[6..22]), FieldText(data[22..38]), Int32(data[2..6])))
    else None
  }

  /** The four ways to fill a SendMessage. */
  datatype Sent =
    | ProcessIdentification(processId: Text)
    | SessionIdentification(sessionId: Text)
    | SessionClose(memorySize: int32, session: Text)
    | SessionStatus(status: int32, session: Text)

  function Fill(d: seq<byte>, m: Sent): (d': seq<byte>)
    requires |d| == SEND_LENGTH
    ensures |d'| == |d|
  {
    match m
    case ProcessIdentification(id) => FillIdentification(d, PROCESS_IDENTIFICATION, id)
    case SessionIdentification(id) => FillIdentification(d, SESSION_IDENTIFICATION, id)
    case SessionClose(memory, id) => FillStatus(d, memory, -1, id)
    case SessionStatus(status, id) => FillStatus(d, 0, status, id)
  }

  function FillIdentification(d: seq<byte>, kind: int16, id: Text): (d': seq<byte>)
    requires |d| == SEND_LENGTH
    ensures |d'| == |d|
  {
    Splice(Splice(d, 0, Le16(kind)), 2, StrNCpy(id, 16))
  }

  function FillStatus(d: seq<byte>, memory: int32, status: int32, id: Text): (d': seq<byte>)
    requires |d| == SEND_LENGTH
    ensures |d'| == |d|
  {
    Splice(Splice(Splice(Splice(d, 0, Le16(SESSION_STATUS)), 2, Le32(memory)), 6, Le16(status)), 8, StrNCpy(id, 16))
  }

  /** A SendMessage object; the process keeps one for all the statuses it sends. */
  class SendMessage {
    const data: array<byte>

    constructor ()
      ensures fresh(data) && data.Length == SEND_LENGTH && data[..] == Zeros(SEND_LENGTH)
    {
      data := new byte[SEND_LENGTH](_ => 0);
      new;
    }

    method FillProcessIdentification(id: Text)
      requires data.Length == SEND_LENGTH
      modifies data
      ensures data[..] == Fill(old(data[..]), ProcessIdentification(id))
    {
      hide Splice, StrNCpy, Le16, Le32;
      Put(data, 0, Le16(PROCESS_IDENTIFICATION));
      PutText(data, 2, id, 16);
    }

    method FillSessionIdentification(id: Text)
      requires data.Length == SEND_LENGTH
      modifies data
      ensures data[..] == Fill(old(data[..]), SessionIdentification(id))
    {
      hide Splice, StrNCpy, Le16, Le32;
      Put(data, 0, Le16(SESSION_IDENTIFICATION));
      PutText(data, 2, id, 16);
    }

    method FillSessionClose(memory: int32, id: Text)
      requires data.Length == SEND_LENGTH
      modifies data
      ensures data[..] == Fill(old(data[..]), SessionClose(memory, id))
    {
      hide Splice, StrNCpy, Le16, Le32;
      Put(data, 0, Le16(SESSION_STATUS));
      Put(data, 2, Le32(memory));
      Put(data, 6, Le16(-1));
      PutText(data, 8, id, 16);
    }

    method FillSessionStatus(status: int32, id: Text)
      requires data.Length == SEND_LENGTH
      modifies data
      ensures data[..] == Fill(old(data[..]), SessionStatus(status, id))
    {
      hide Splice, StrNCpy, Le16, Le32;
      Put(data, 0, Le16(SESSION_STATUS));
      Put(data, 2, Le32(0));
      Put(data, 6, Le16(status));
      PutText(data, 8, id, 16);
    }
  }

  // ----- answers of functions to the client of the data plane

  const PAYLOAD: int16 := 0
  const UNKNOWN_REQUEST: int16 := 1
  const OUT_OF_MEMORY: int16 := 2
  const UNKNOWN_FUNCTION: int16 := 3

  datatype Answer =
    | Data(size: int32, id: Text)
    | Error(status: int16, id: Text)
    | End(returnCode: int, id: Text)

  function FillAnswer(d: seq<byte>, a: Answer): (d': seq<byte>)
    requires |d| == SEND_LENGTH
    ensures |d'| == |d|
  {
    match a
    case Data(size, id) => FillFields(d, PAYLOAD, -1, size, id)
    case Error(status, id) => FillFields(d, status, -1, 0, id)
    case End(returnCode, id) => FillFields(d, PAYLOAD, returnCode, 0, id)
  }

  function FillFields(d: seq<byte>, number: int16, flag: int, size: int32, id: Text): (d': seq<byte>)
    requires |d| == SEND_LENGTH
    ensures |d'| == |d|
  {
    Splice(Splice(Splice(Splice(d, 0, Le16(number)), 2, Le16(flag)), 4, Le32(size)), 8, StrNCpy(id, 16))
  }

  /** The interpretation the message's documentation gives. */
  datatype Reading =
    | Final(returnCode: int16, id: Text)
    | Upcoming(size: int32, id: Text)
    | Failed(number: int16, id: Text)
    | Meaningless

  function Interpret(d: seq<byte>): (r: Reading)
    requires |d| == SEND_LENGTH
  {
    var number, flag := Int16(d[0..2]), Int16(d[2..4]);
    if number == 0 && flag != -1 then Final(flag, d[8..24])
    else if number == 0 then Upcoming(Int32(d[4..8]), d[8..24])
    else if number > 0 then Failed(number, d[8..24])
    else Meaningless
  }

  class FunctionMessage {
    const data: array<byte>

    /** Nothing clears the buffer here: its first contents are arbitrary. */
    constructor ()
      ensures fresh(data) && data.Length == SEND_LENGTH
    {
      data := new byte[SEND_LENGTH];
    }

    method FillPayload(size: int32, id: Text)
      requires data.Length == SEND_LENGTH
      modifies data
      ensures data[..] == FillAnswer(old(data[..]), Data(size, id))
    {
      hide Splice, StrNCpy, Le16, Le32;
      Put(data, 0, Le16(PAYLOAD));
      Put(data, 2, Le16(-1));
      Put(data, 4, Le32(size));
      PutText(data, 8, id, 16);
    }

    method FillError(status: int16, id: Text)
      requires data.Length == SEND_LENGTH
      modifies data
      ensures data[..] == FillAnswer(old(data[..]), Error(status, id))
    {
      hide Splice, StrNCpy, Le16, Le32;
      Put(data, 0, Le16(status));
      Put(data, 2, Le16(-1));
      Put(data, 4, Le32(0));
      PutText(data, 8, id, 16);
    }

    method FillEnd(returnCode: int16, id: Text)
      requires data.Length == SEND_LENGTH
      modifies data
      ensures data[..] == FillAnswer(old(data[..]), End(returnCode, id))
    {
      hide Splice, StrNCpy, Le16, Le32;
      Put(data, 0, Le16(PAYLOAD));
      Put(data, 2, Le16(returnCode));
      Put(data, 4, Le32(0));
      PutText(data, 8, id, 16);
    }
  }

  lemma FieldsRead(d: seq<byte>, number: int16, flag: int, size: int32, id: Text)
    requires |d| == SEND_LENGTH
    ensures
      var d' := FillFields(d, number, flag, size, id);
      && Int16(d'[0..2]) == number && Int16(d'[2..4]) == Wrap16(flag) && Int32(d'[4..8]) == size
      && d'[8..24] == StrNCpy(id, 16)
  {
    var d1 := Splice(d, 0, Le16(number));
    var d2 := Splice(d1, 2, Le16(flag));
    var d3 := Splice(d2, 4, Le32(size));
    SpliceReads(d, 0, Le16(number));
    SpliceReads(d1, 2, Le16(flag));
    SpliceReads(d2, 4, Le32(size));
    SpliceReads(d3, 8, StrNCpy(id, 16));
    Le16RoundTrip(number);
    Le16RoundTrip(flag);
    Le32RoundTrip(size);
    hide Splice, StrNCpy, Le16, Le32, Int16, Int32;
  }

  /** Data and errors are read as what they are; so is an end, unless its return code is -1 in 16 bits:
      that one reads as the announcement of an empty piece of data. */
  lemma AnswerReads(d: seq<byte>, a: Answer)
    requires |d| == SEND_LENGTH && (a.Error? ==> a.status in {UNKNOWN_REQUEST, OUT_OF_MEMORY, UNKNOWN_FUNCTION})
    ensures
      var id := StrNCpy(a.id, 16);
      Interpret(FillAnswer(d, a))
      == match a
         case Data(size, _) => Upcoming(size, id)
         case Error(status, _) => Failed(status, id)
         case End(code, _) => if Wrap16(code) == -1 then Upcoming(0, id) else Final(Wrap16(code), id)
  {
    hide FillFields, Int16, Int32, StrNCpy, Wrap16;
    match a
    case Data(size, id) =>
      FieldsRead(d, PAYLOAD, -1, size, id);
      MinusOneIff(-1);
    case Error(status, id) =>
      FieldsRead(d, status, -1, 0, id);
      MinusOneIff(-1);
    case End(code, id) => FieldsRead(d, PAYLOAD, code, 0, id);
  }

  /** The end of a function is recognised exactly when its return code is not -1 modulo 65536. */
  lemma EndIsFinalIff(d: seq<byte>, code: int, id: Text)
    requires |d| == SEND_LENGTH
    ensures Interpret(FillAnswer(d, End(code, id))).Final? <==> (code + 1) % 0x1_0000 != 0
  {
    AnswerReads(d, End(code, id));
    MinusOneIff(code);
    hide FillAnswer, Interpret, StrNCpy, Wrap16;
  }

  lemma MinusOneIff(x: int)
    ensures Wrap16(x) == -1 <==> (x + 1) % 0x1_0000 == 0
  {
  }
}
