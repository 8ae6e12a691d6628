/** The two hand-written codecs read what the other one writes, also when a buffer is reused. */
module MessagePairs {
  import opened Bytes
  import opened Wire
  import opened Tables
  import opened RuntimeSessions
  import opened Protocol
  import C = CommonMessages
  import R = RuntimeMessages
  import I = Invariant
  import Theorems

  // ----- control plane to runtime

  /** A session request arrives whole, whatever the buffer held before. */
  lemma SessionRequestArrives(d: seq<byte>, id: Text, maxFunctions: int32, memory: int32)
    requires |d| == C.REQUEST_LENGTH
    ensures R.Parse(C.FillSessionRequest(d, id, maxFunctions, memory), R.EXPECTED_LENGTH)
      == Some(R.SessionRequestMsg(StrNCpy(id, 16), maxFunctions, memory))
  {
    var d1 := Splice(d, 0, Le16(C.SESSION_ALLOCATION));
    var d2 := Splice(d1, 2, Le32(maxFunctions));
    var d3 := Splice(d2, 6, Le32(memory));
    SpliceReads(d, 0, Le16(C.SESSION_ALLOCATION));
    SpliceReads(d1, 2, Le32(maxFunctions));
    SpliceReads(d2, 6, Le32(memory));
    SpliceReads(d3, 10, StrNCpy(id, 16));
    Le16RoundTrip(C.SESSION_ALLOCATION);
    Le32RoundTrip(maxFunctions);
    Le32RoundTrip(memory);
    hide Splice, StrNCpy, Le16, Le32, Int16, Int32, FieldText, Wrap16, Wrap32;
  }

  /** The invocations for which one FunctionRequest object was filled, one after the other. */
  datatype Header = Header(name: Text, id: Text, payloadSize: int32)

  function Filled(headers: seq<Header>): (d: seq<byte>)
    ensures |d| == C.REQUEST_LENGTH
  {
    if headers == [] then Zeros(C.REQUEST_LENGTH)
    else
      var last := headers[|headers| - 1];
      C.FillFunctionRequest(Filled(headers[..|headers| - 1]), last.name, last.id, last.payloadSize)
  }

  /** What the fill writes, in a buffer whose bytes 4 and 5 are zero; they stay zero. */
  lemma FunctionRequestFields(d: seq<byte>, h: Header)
    requires |d| == C.REQUEST_LENGTH && d[4..6] == [0, 0]
    ensures
      var d' := C.FillFunctionRequest(d, h.name, h.id, h.payloadSize);
      && Int16(d'[0..2]) == C.FUNCTION_INVOCATION && d'[2..4] == Le16(h.payloadSize) && d'[4..6] == [0, 0]
      && d'[6..22] == StrNCpy(h.name, 16) && d'[22..38] == StrNCpy(h.id, 16)
  {
    var d1 := Splice(d, 0, Le16(C.FUNCTION_INVOCATION));
    var d2 := Splice(d1, 2, Le16(h.payloadSize));
    var d3 := Splice(d2, 6, StrNCpy(h.name, 16));
    SpliceReads(d, 0, Le16(C.FUNCTION_INVOCATION));
    SpliceReads(d1, 2, Le16(h.payloadSize));
    SpliceReads(d2, 6, StrNCpy(h.name, 16));
    SpliceReads(d3, 22, StrNCpy(h.id, 16));
    Le16RoundTrip(C.FUNCTION_INVOCATION);
    hide Splice, StrNCpy, Le16, Int16, Wrap16;
  }

  lemma LowHalf(s: seq<byte>, x: int)
    requires |s| == 4 && s[0..2] == Le16(x) && s[2..4] == [0, 0]
    ensures Int32(s) == x % 0x1_0000
  {
    assert s[0] == s[0..2][0] && s[1] == s[0..2][1] && s[2] == s[2..4][0] && s[3] == s[2..4][1];
  }

  lemma {:induction false} HighHalfStaysZero(headers: seq<Header>)
    ensures Filled(headers)[4..6] == [0, 0]
  {
    if headers != [] {
      HighHalfStaysZero(headers[..|headers| - 1]);
      FunctionRequestFields(Filled(headers[..|headers| - 1]), headers[|headers| - 1]);
    }
  }

  /** After any fills of one object the runtime sees the last header, with the payload size modulo 65536. */
  lemma FunctionRequestArrives(headers: seq<Header>, h: Header)
    ensures Filled(headers + [h])[4..6] == [0, 0]
    ensures R.Parse(Filled(headers + [h]), R.EXPECTED_LENGTH)
      == Some(R.FunctionRequestMsg(Kept(h.name, 16), Kept(h.id, 16), h.payloadSize % 0x1_0000))
  {
    assert (headers + [h])[..|headers + [h]| - 1] == headers;
    HighHalfStaysZero(headers);
    HeaderArrives(Filled(headers), h);
  }

  lemma HeaderArrives(d: seq<byte>, h: Header)
    requires |d| == C.REQUEST_LENGTH && d[4..6] == [0, 0]
    ensures
      var d' := C.FillFunctionRequest(d, h.name, h.id, h.payloadSize);
      && d'[4..6] == [0, 0]
      && R.Parse(d', R.EXPECTED_LENGTH)
         == Some(R.FunctionRequestMsg(Kept(h.name, 16), Kept(h.id, 16), h.payloadSize % 0x1_0000))
  {
    var d' := C.FillFunctionRequest(d, h.name, h.id, h.payloadSize);
    FunctionRequestFields(d, h);
    hide C.FillFunctionRequest;
    FieldRoundTrip(h.name, 16);
    FieldRoundTrip(h.id, 16);
    var size := d'[2..6];
    assert size[0..2] == d'[2..4] && size[2..4] == d'[4..6];
    LowHalf(size, h.payloadSize);
    hide Kept, StrNCpy, FieldText, Int16, Int32, Le16;
  }

  // ----- runtime to control plane

  function FilledAll(messages: seq<R.Sent>): (d: seq<byte>)
    ensures |d| == R.SEND_LENGTH
  {
    if messages == [] then Zeros(R.SEND_LENGTH)
    else R.Fill(FilledAll(messages[..|messages| - 1]), messages[|messages| - 1])
  }

  /** What a message is meant to say. A status keeps its low 16 bits. */
  function Meaning(m: R.Sent): (r: C.Message) {
    match m
    case ProcessIdentification(id) => C.ProcessMessage(StrNCpy(id, 16))
    case SessionIdentification(id) => C.SessionMessage(StrNCpy(id, 16))
    case SessionClose(memory, id) => C.SessionStatusMessage(memory, -1, StrNCpy(id, 16))
    case SessionStatus(status, id) => C.SessionStatusMessage(0, Wrap16(status), StrNCpy(id, 16))
  }

  lemma IdentificationArrives(d: seq<byte>, kind: int16, id: Text)
    requires |d| == R.SEND_LENGTH && kind in {R.PROCESS_IDENTIFICATION, R.SESSION_IDENTIFICATION}
    ensures C.Parse(R.FillIdentification(d, kind, id))
      == Some(if kind == R.PROCESS_IDENTIFICATION then C.ProcessMessage(StrNCpy(id, 16))
              else C.SessionMessage(StrNCpy(id, 16)))
  {
    SpliceReads(d, 0, Le16(kind));
    SpliceReads(Splice(d, 0, Le16(kind)), 2, StrNCpy(id, 16));
    Le16RoundTrip(kind);
    hide Splice, StrNCpy, Le16, Int16, Int32;
  }

  lemma StatusArrives(d: seq<byte>, memory: int32, status: int32, id: Text)
    requires |d| == R.SEND_LENGTH
    ensures C.Parse(R.FillStatus(d, memory, status, id))
      == Some(C.SessionStatusMessage(memory, Wrap16(status), StrNCpy(id, 16)))
  {
    var d1 := Splice(d, 0, Le16(R.SESSION_STATUS));
    var d2 := Splice(d1, 2, Le32(memory));
    var d3 := Splice(d2, 6, Le16(status));
    SpliceReads(d, 0, Le16(R.SESSION_STATUS));
    SpliceReads(d1, 2, Le32(memory));
    SpliceReads(d2, 6, Le16(status));
    SpliceReads(d3, 8, StrNCpy(id, 16));
    Le16RoundTrip(R.SESSION_STATUS);
    Le16RoundTrip(status);
    Le32RoundTrip(memory);
    hide Splice, StrNCpy, Le16, Le32, Int16, Int32, Wrap16, Wrap32;
  }

  /** After any fills of one object, in any order and of any kind, the control plane sees the last one. */
  lemma LastMessageArrives(messages: seq<R.Sent>, m: R.Sent)
    ensures C.Parse(FilledAll(messages + [m])) == Some(Meaning(m))
  {
    assert (messages + [m])[..|messages + [m]| - 1] == messages;
    var d := FilledAll(messages);
    match m
    case ProcessIdentification(id) => IdentificationArrives(d, R.PROCESS_IDENTIFICATION, id);
    case SessionIdentification(id) => IdentificationArrives(d, R.SESSION_IDENTIFICATION, id);
    case SessionClose(memory, id) => StatusArrives(d, memory, -1, id);
    case SessionStatus(status, id) => StatusArrives(d, 0, status, id);
  }

  /** The control plane takes a message for a closure exactly when it is one, or a status that is -1 in its
      low 16 bits, which no status of allocate_session is. */
  lemma ClosureIff(m: R.Sent)
    ensures
      (Meaning(m).SessionStatusMessage? && Meaning(m).sessionStatus == -1)
      <==> m.SessionClose? || (m.SessionStatus? && (m.status + 1) % 0x1_0000 == 0)
    ensures m.SessionStatus? && m.status in {SUCCESS, NO_MORE_CAPACITY, SESSION_CONFLICT, UNKNOWN_FAILURE}
      ==> Meaning(m).SessionStatusMessage? && Meaning(m).sessionStatus == m.status
  {
  }

  // ----- the messages of the protocol

  /** What a runtime process writes for a message of the protocol. */
  function Written(m: UpMessage): (r: R.Sent) {
    match m
    case Status(s, code) => R.SessionStatus(code, s)
    case Closed(c) => R.SessionClose(c.bytes, c.session)
  }

  /** Ids of the protocol fill their fields. */
  lemma IdsFit(acts: seq<Action>, st: State)
    requires Exec(acts) == Some(st)
    ensures forall s :: s in st.history.created || s in st.tables.processes ==> |s| == 16 && NulFree(s)
    ensures I.ProcsConfig(st.tables.processes, st.history.created) && I.LinksConfig(st.links, st.history.created)
    ensures st.links.Keys == st.tables.processes.Keys
  {
    hide Exec, I.Inv, I.ClientsOk, I.ListsOk, I.SwappedOk, I.ClosersOk, I.LinksOk, I.StagesOk, I.FlagsOk,
      I.JobsOk, I.CapacityOk, I.CreatedOk, I.JobsConfig, I.SessionsConfig, I.ProcsConfig, I.LinksConfig,
      I.RequestsOk, I.WinsOk, I.InvocationsOk;
    var loc := Theorems.Consistent(acts, st);
  }

  /** In every run, every allocation request means the same to the runtime as to the control plane, whatever
      the buffer was used for before. */
  lemma RequestsArrive(acts: seq<Action>, st: State, p: Text, k: nat, d: seq<byte>)
    requires Exec(acts) == Some(st) && p in st.tables.processes && k < |st.tables.processes[p].sent|
    requires |d| == C.REQUEST_LENGTH
    ensures
      var r := st.tables.processes[p].sent[k];
      R.Parse(C.FillSessionRequest(d, r.session, r.maxFunctions, r.memory), R.EXPECTED_LENGTH)
      == Some(R.SessionRequestMsg(r.session, r.maxFunctions, r.memory))
  {
    IdsFit(acts, st);
    var r := st.tables.processes[p].sent[k];
    assert I.Matches(r.session, r.maxFunctions, r.memory, st.history.created) by { hide Exec, I.SizeOf; }
    SessionRequestArrives(d, r.session, r.maxFunctions, r.memory);
    KeptFits(r.session, 16);
    hide Exec, R.Parse, C.FillSessionRequest, I.SizeOf;
  }

  /** Likewise every closure, and no status is taken for one. */
  lemma NoticesArrive(acts: seq<Action>, st: State, p: Text, k: nat, messages: seq<R.Sent>)
    requires Exec(acts) == Some(st) && p in st.links && k < |st.links[p].up|
    ensures
      var read := C.Parse(FilledAll(messages + [Written(st.links[p].up[k])]));
      match st.links[p].up[k]
      case Closed(c) => read == Some(C.SessionStatusMessage(c.bytes, -1, c.session))
      case Status(_, code) => read.Some? && read.value.SessionStatusMessage? && read.value.sessionStatus == code != -1
  {
    hide Exec, FilledAll, C.Parse, I.LinksConfig, I.ProcsConfig;
    var m := st.links[p].up[k];
    LastMessageArrives(messages, Written(m));
    if m.Closed? {
      IdsFit(acts, st);
      ClosureIsCreated(st, p, k);
      KeptFits(m.closure.session, 16);
    } else {
      StatusCode(acts, st, p, k);
      assert Wrap16(m.code) == m.code;
    }
  }

  lemma ClosureIsCreated(st: State, p: Text, k: nat)
    requires p in st.links && k < |st.links[p].up| && st.links[p].up[k].Closed?
    requires I.LinksConfig(st.links, st.history.created)
    ensures st.links[p].up[k].closure.session in st.history.created
  {
    assert I.ClosureConfig(st.links[p].up[k].closure, st.history.created);
  }

  lemma StatusCode(acts: seq<Action>, st: State, p: Text, k: nat)
    requires Exec(acts) == Some(st) && p in st.links && k < |st.links[p].up| && st.links[p].up[k].Status?
    ensures st.links[p].up[k].code != -1
  {
    hide Exec, I.Inv, I.ClientsOk, I.ListsOk, I.SwappedOk, I.ClosersOk, I.LinksOk, I.StagesOk, I.FlagsOk,
      I.JobsOk, I.CapacityOk, I.IdsOk, I.CreatedOk, I.JobsConfig, I.SessionsConfig, I.ProcsConfig,
      I.LinksConfig, I.RequestsOk, I.WinsOk, I.InvocationsOk;
    var loc := Theorems.Consistent(acts, st);
    Theorems.Linked(st, loc, p);
    assert I.Allowed(st.links[p].up[k]);
  }

  /** A process identifies itself under the id its entry in the table has. */
  lemma IdentificationNamesTheProcess(acts: seq<Action>, st: State, p: Text, messages: seq<R.Sent>)
    requires Exec(acts) == Some(st) && p in st.tables.processes
    ensures C.Parse(FilledAll(messages + [R.ProcessIdentification(p)])) == Some(C.ProcessMessage(p))
  {
    IdsFit(acts, st);
    LastMessageArrives(messages, R.ProcessIdentification(p));
    KeptFits(p, 16);
  }
}
