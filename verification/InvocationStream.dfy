/** The stream of invocations on a session's connection: what process_session writes for a queue
    (ControlPlane.Worker.SendQueued is its loop), and what the session's receive makes of it. Reads are complete
    unless the stream ends or the read fails. */
module InvocationStream {
  import opened Bytes
  import opened Wire
  import opened Tables
  import opened BufferPool
  import C = CommonMessages
  import R = RuntimeMessages
  import M = MessagePairs

  // ----- the sender

  function HeaderOf(item: Invocation): (r: M.Header) { M.Header(item.name, item.id, Wrap32(|item.payload|)) }

  /** `before` are the headers that the reused FunctionRequest object was filled with so far. */
  function SendFrom(before: seq<M.Header>, queue: seq<Invocation>): (r: seq<byte>)
    decreases |queue|
  {
    if queue == [] then []
    else
      var filled := before + [HeaderOf(queue[0])];
      M.Filled(filled) + queue[0].payload + SendFrom(filled, queue[1..])
  }

  /** An empty queue is announced by a header without a name. */
  function SendAll(queue: seq<Invocation>): (r: seq<byte>) {
    if queue == [] then M.Filled([M.Header([], [], 0)]) else SendFrom([], queue)
  }

  /** The first message of a queue, and the end of it. */
  lemma SendStart(queue: seq<Invocation>)
    ensures M.Filled([]) == Zeros(C.REQUEST_LENGTH)
    ensures queue == [] ==> SendAll(queue) == C.FillFunctionRequest(M.Filled([]), [], [], 0)
    ensures queue != [] ==> SendAll(queue) == SendFrom([], queue)
  {
    hide C.FillFunctionRequest;
    MoreFilled([], M.Header([], [], 0));
    assert [] + [M.Header([], [], 0)] == [M.Header([], [], 0)];
  }

  lemma SendEnd(before: seq<M.Header>)
    ensures SendFrom(before, []) == []
  {
  }

  lemma SendStep(written: seq<byte>, before: seq<M.Header>, rest: seq<Invocation>)
    requires rest != []
    ensures
      var filled := before + [HeaderOf(rest[0])];
      written + SendFrom(before, rest)
      == written + M.Filled(filled) + rest[0].payload + SendFrom(filled, rest[1..])
  {
  }

  lemma MoreFilled(before: seq<M.Header>, h: M.Header)
    ensures M.Filled(before + [h]) == C.FillFunctionRequest(M.Filled(before), h.name, h.id, h.payloadSize)
  {
    assert (before + [h])[..|before + [h]| - 1] == before;
  }

  // ----- the receiver

  datatype Event =
    | EndOfStream
    | UnknownRequest
    | Ignored
    | OutOfMemory(id: Text)
    | Invoked(name: Text, id: Text, payload: seq<byte>)
    | InvokedUnread(name: Text, id: Text)  // with a payload length of -1
    | NotRead

  /** A read that returns -1, and then takes nothing off the stream. */
  datatype Fault = NoFault | HeaderFails | PayloadFails

  function Shorter(a: nat, b: nat): (r: nat) { if a < b then a else b }

  /** One call of receive: what it does, what it leaves of the stream, and of the queue of buffers. */
  function ReceiveOne(stream: seq<byte>, pool: seq<Buffer>): (r: (Event, seq<byte>, seq<Buffer>))
    ensures r.0.EndOfStream? <==> stream == []
    ensures stream != [] ==> |r.1| < |stream|
  {
    if stream == [] then (EndOfStream, [], pool)
    else if |stream| < R.EXPECTED_LENGTH then (UnknownRequest, [], pool)
    else
      var rest := stream[R.EXPECTED_LENGTH..];
      match R.Parse(stream[..R.EXPECTED_LENGTH], R.EXPECTED_LENGTH)
      case Some(FunctionRequestMsg(name, id, size)) =>
        if name == [] then (Ignored, rest, pool)
        else if size <= 0 then (Invoked(name, id, []), rest, pool)
        else
          var pool' := if pool == [] then [] else pool[1..];
          if Front(pool, size, 0).size == 0 then (OutOfMemory(id), rest, pool')
          else
            var n := Shorter(size, |rest|);
            (Invoked(name, id, rest[..n]), rest[n..], pool')
      case _ => (UnknownRequest, rest, pool)
  }

  /** The payload length that the header in front announces. */
  function Announced(stream: seq<byte>): (n: int32) {
    if |stream| < R.EXPECTED_LENGTH then 0
    else
      match R.Parse(stream[..R.EXPECTED_LENGTH], R.EXPECTED_LENGTH)
      case Some(FunctionRequestMsg(_, _, size)) => size
      case _ => 0
  }

  /** The same when a read may fail: without a header nothing happens, without a payload the function is invoked
      all the same. */
  function ReceiveWith(stream: seq<byte>, pool: seq<Buffer>, fault: Fault): (r: (Event, seq<byte>, seq<Buffer>)) {
    var (event, rest, pool') := ReceiveOne(stream, pool);
    if fault.HeaderFails? then (NotRead, stream, pool)
    else if fault.PayloadFails? && event.Invoked? && Announced(stream) > 0 then
      (InvokedUnread(event.name, event.id), stream[R.EXPECTED_LENGTH..], pool')
    else (event, rest, pool')
  }

  /** What read_n left in the memory of a buffer. */
  function Stored(memory: map<nat, seq<byte>>, buf: Buffer, payload: seq<byte>): (after: map<nat, seq<byte>>) {
    if buf.val.Some? then memory[buf.val.value := payload] else memory
  }

  /** A connection, with the bytes that are still to be read from it. */
  class Connection {
    var incoming: seq<byte>

    constructor (bytes: seq<byte>)
      ensures incoming == bytes
    {
      incoming := bytes;
    }

    method Read(data: array<byte>, n: nat, fails: bool) returns (bytes: int)
      requires n <= data.Length
      modifies this, data
      ensures fails ==> bytes == -1 && incoming == old(incoming) && data[..] == old(data[..])
      ensures !fails ==> bytes == Shorter(n, |old(incoming)|) && incoming == old(incoming)[bytes..]
                         && data[..bytes] == old(incoming)[..bytes]
    {
      if fails {
        return -1;
      }
      var k: nat := Shorter(n, |incoming|);
      ghost var before := incoming;
      var i := 0;
      while i < k
        invariant i <= k && incoming == before && data[..i] == before[..i]
      {
        data[i] := incoming[i];
        i := i + 1;
      }
      incoming := incoming[k..];
      bytes := k;
    }
  }

  /** The receiving side of a Session: its buffers, what their memory holds, and one buffer for all headers. */
  class Session {
    const buffers: BufferQueue
    const msg: array<byte>
    var memory: map<nat, seq<byte>>

    constructor (buffers: BufferQueue)
      ensures this.buffers == buffers && fresh(msg) && msg.Length == R.EXPECTED_LENGTH
    {
      this.buffers := buffers;
      msg := new byte[R.EXPECTED_LENGTH](_ => 0);
      memory := map[];
    }

    /** A function worker that is given `buf` finds the payload there. */
    method Receive(connection: Connection, fault: Fault) returns (event: Event, buf: Buffer)
      requires msg.Length == R.EXPECTED_LENGTH
      modifies msg, connection, buffers, this`memory
      ensures (event, connection.incoming, buffers.buffers)
        == ReceiveWith(old(connection.incoming), old(buffers.buffers), fault)
      ensures event.Invoked? || event.InvokedUnread? ==>
        buf == if Announced(old(connection.incoming)) <= 0 then NULL_BUFFER
               else Front(old(buffers.buffers), Announced(old(connection.incoming)), old(buffers.next))
      ensures memory == if event.Invoked? && Announced(old(connection.incoming)) > 0
                        then Stored(old(memory), buf, event.payload) else old(memory)
      ensures event.Invoked? && event.payload != [] && buf.val.Some? ==>
        && buf.val.value in memory && memory[buf.val.value] == event.payload
        && forall x :: x in old(memory) && x != buf.val.value ==> x in memory && memory[x] == old(memory)[x]
      ensures fault.HeaderFails? ==>
        && event == NotRead && connection.incoming == old(connection.incoming)
        && buffers.buffers == old(buffers.buffers) && memory == old(memory)
      ensures event.InvokedUnread? ==>
        && |old(connection.incoming)| >= R.EXPECTED_LENGTH && memory == old(memory)
        && connection.incoming == old(connection.incoming)[R.EXPECTED_LENGTH..]
      ensures event.InvokedUnread? <==>
        && fault.PayloadFails? && Announced(old(connection.incoming)) > 0
        && ReceiveOne(old(connection.incoming), old(buffers.buffers)).0.Invoked?
    {
      buf := NULL_BUFFER;
      ghost var stream := connection.incoming;
      var bytes := connection.Read(msg, R.EXPECTED_LENGTH, fault.HeaderFails?);
      if bytes == -1 {
        return NotRead, buf;
      }
      if bytes == 0 {
        return EndOfStream, buf;
      }
      assert bytes == R.EXPECTED_LENGTH ==> msg[..] == stream[..bytes];
      var parsed := R.Parse(msg[..], bytes);
      if parsed.None? || !parsed.value.FunctionRequestMsg? {
        return UnknownRequest, buf;
      }
      hide R.Parse;
      var request := parsed.value;
      if request.functionName == [] {
        return Ignored, buf;
      }
      if request.payload > 0 {
        buf := buffers.RetrieveBuffer(request.payload);
        if buf.size == 0 {
          return OutOfMemory(request.functionId), buf;
        }
        event := TakePayload(connection, request, buf, fault.PayloadFails?);
      } else {
        event := Invoked(request.functionName, request.functionId, []);
      }
    }

    /** read_n into the buffer. */
    method TakePayload(connection: Connection, request: R.Received, buf: Buffer, fails: bool)
      returns (event: Event)
      requires request.FunctionRequestMsg? && request.payload > 0
      modifies connection, this`memory
      ensures fails ==> event == InvokedUnread(request.functionName, request.functionId)
                        && connection.incoming == old(connection.incoming) && memory == old(memory)
      ensures !fails ==>
        var n := Shorter(request.payload, |old(connection.incoming)|);
        && event == Invoked(request.functionName, request.functionId, old(connection.incoming)[..n])
        && connection.incoming == old(connection.incoming)[n..] && memory == Stored(old(memory), buf, event.payload)
    {
      var val := new byte[request.payload];
      var bytes := connection.Read(val, request.payload, fails);
      if bytes == -1 {
        return InvokedUnread(request.functionName, request.functionId);
      }
      event := Invoked(request.functionName, request.functionId, val[..bytes]);
      memory := Stored(memory, buf, event.payload);
    }
  }

  // ----- what arrives

  predicate WellFormed(item: Invocation) {
    && item.name != [] && NulFree(item.name) && |item.name| <= 16
    && NulFree(item.id) && |item.id| <= 16
    && |item.payload| < 0x1_0000
  }

  /** The queue of buffers can serve a payload of any size. */
  predicate Ready(pool: seq<Buffer>) { pool != [] && pool[0].size > 0 }

  function DecodedLength(item: Invocation): (n: nat)
    ensures n <= |item.payload| && n < 0x1_0000
    ensures |item.payload| < 0x1_0000 ==> n == |item.payload|
  {
    |item.payload| % 0x1_0000
  }

  lemma LengthOnTheWire(item: Invocation)
    ensures HeaderOf(item).payloadSize % 0x1_0000 == DecodedLength(item)
  {
  }

  /** One frame, whatever its contents: texts are cut at 16 bytes or the first NUL, the payload at its length
      modulo 65536; the rest of it is what the next read begins with. */
  lemma FrameArrives(before: seq<M.Header>, item: Invocation, tail: seq<byte>, pool: seq<Buffer>)
    ensures
      var (name, id, n) := (Kept(item.name, 16), Kept(item.id, 16), DecodedLength(item));
      var (event, rest, _) := ReceiveOne(M.Filled(before + [HeaderOf(item)]) + item.payload + tail, pool);
      if name == [] then event == Ignored && rest == item.payload + tail
      else if n > 0 && Front(pool, n, 0).size == 0 then event == OutOfMemory(id) && rest == item.payload + tail
      else event == Invoked(name, id, item.payload[..n]) && rest == item.payload[n..] + tail
  {
    M.FunctionRequestArrives(before, HeaderOf(item));
    LengthOnTheWire(item);
    var header := M.Filled(before + [HeaderOf(item)]);
    assert header + item.payload + tail == header + (item.payload + tail);
    hide M.Filled, R.Parse, Kept, Front, HeaderOf, ReceiveOne, Wrap32;
    HeaderArrives(header, item.payload + tail, Kept(item.name, 16), Kept(item.id, 16), DecodedLength(item), pool);
    SplitSum(item.payload, tail, DecodedLength(item));
  }

  lemma SplitSum(s: seq<byte>, t: seq<byte>, n: nat)
    requires n <= |s|
    ensures (s + t)[..n] == s[..n] && (s + t)[n..] == s[n..] + t
  {
  }

  lemma HeaderArrives(header: seq<byte>, rest: seq<byte>, name: Text, id: Text, n: nat, pool: seq<Buffer>)
    requires |header| == R.EXPECTED_LENGTH && n < 0x1_0000 && n <= |rest|
    requires R.Parse(header, R.EXPECTED_LENGTH) == Some(R.FunctionRequestMsg(name, id, n))
    ensures
      var (event, rest', _) := ReceiveOne(header + rest, pool);
      if name == [] then event == Ignored && rest' == rest
      else if n > 0 && Front(pool, n, 0).size == 0 then event == OutOfMemory(id) && rest' == rest
      else event == Invoked(name, id, rest[..n]) && rest' == rest[n..]
  {
    assert (header + rest)[..R.EXPECTED_LENGTH] == header;
    assert (header + rest)[R.EXPECTED_LENGTH..] == rest;
    hide R.Parse, Front;
  }

  /** A message is refused exactly if it is cut short or its first two bytes are not those of an invocation. */
  lemma RefusedIff(stream: seq<byte>, pool: seq<Buffer>)
    ensures ReceiveOne(stream, pool).0.UnknownRequest? <==>
      0 < |stream| < R.EXPECTED_LENGTH || (|stream| >= R.EXPECTED_LENGTH && stream[..2] != [13, 0])
    ensures ReceiveOne(stream, pool).0.UnknownRequest? ==>
      ReceiveOne(stream, pool).1 == (if |stream| < R.EXPECTED_LENGTH then [] else stream[R.EXPECTED_LENGTH..])
      && ReceiveOne(stream, pool).2 == pool
  {
    hide Front, FieldText, Int32;
    if |stream| >= R.EXPECTED_LENGTH {
      var head := stream[..R.EXPECTED_LENGTH];
      assert head[0..2] == stream[..2] == [stream[0], stream[1]];
      KindIs(head);
    }
  }

  lemma KindIs(head: seq<byte>)
    requires |head| == R.EXPECTED_LENGTH
    ensures Int16(head[0..2]) == 13 <==> head[0..2] == [13, 0]
  {
    assert head[0..2] == [head[0], head[1]];
  }

  /** All calls of receive until the stream ends; pools(k) is the queue of buffers at the k-th call. */
  function ReceiveAll(stream: seq<byte>, pools: nat -> seq<Buffer>, k: nat): (r: seq<Event>)
    decreases |stream|
  {
    var (event, rest, _) := ReceiveOne(stream, pools(k));
    if event.EndOfStream? then [] else [event] + ReceiveAll(rest, pools, k + 1)
  }

  function Invocations(events: seq<Event>): (r: seq<Invocation>) {
    if events == [] then []
    else (if events[0].Invoked? then [Invocation(events[0].name, events[0].id, events[0].payload)] else [])
         + Invocations(events[1..])
  }

  /** A field keeps a text exactly when it fits and holds no NUL. */
  lemma KeptIff(t: Text, n: nat)
    ensures Kept(t, n) == t <==> NulFree(t) && |t| <= n
    ensures NulFree(Kept(t, n)) && |Kept(t, n)| <= n
  {
    assert t[..|t|] == t;
    if NulFree(t) {
      StrLenIs(t, |t|);
    }
  }

  ghost predicate AllReady(pools: nat -> seq<Buffer>) { forall k :: Ready(pools(k)) }

  predicate ProperName(name: Text) { name != [] && NulFree(name) }

  /** Whatever the bytes of a stream are, no invocation without a proper name comes out of it. */
  lemma {:induction false} NamesReceived(stream: seq<byte>, pools: nat -> seq<Buffer>, k: nat)
    ensures forall x :: x in Invocations(ReceiveAll(stream, pools, k)) ==> ProperName(x.name)
    decreases |stream|
  {
    var (event, rest, _) := ReceiveOne(stream, pools(k));
    if !event.EndOfStream? {
      NamesReceived(rest, pools, k + 1);
      InvocationsMore(event, ReceiveAll(rest, pools, k + 1));
    }
  }

  lemma InvocationsMore(event: Event, events: seq<Event>)
    ensures Invocations([event] + events)
      == (if event.Invoked? then [Invocation(event.name, event.id, event.payload)] else []) + Invocations(events)
  {
    assert ([event] + events)[1..] == events;
  }

  /** Up to some item everything was received, and at that item something else, or nothing more although the
      item has no proper name. Such a sequence stays different whatever is received later. */
  ghost predicate Diverges(received: seq<Invocation>, queue: seq<Invocation>) {
    exists m :: DivergesAt(received, queue, m)
  }

  ghost predicate DivergesAt(received: seq<Invocation>, queue: seq<Invocation>, m: nat) {
    && m < |queue| && m <= |received| && received[..m] == queue[..m]
    && if m < |received| then received[m] != queue[m] else !ProperName(queue[m].name)
  }

  /** One part follows another; names that are received are proper. */
  lemma DivergesMore(r: seq<Invocation>, q: seq<Invocation>, r': seq<Invocation>, q': seq<Invocation>)
    requires forall x :: x in r' ==> ProperName(x.name)
    ensures Diverges(r, q) ==> Diverges(r + r', q + q')
    ensures r == q && Diverges(r', q') ==> Diverges(r + r', q + q')
  {
    hide ProperName;
    if m: nat :| DivergesAt(r, q, m) {
      assert (r + r')[..m] == r[..m] && (q + q')[..m] == q[..m];
      assert DivergesAt(r + r', q + q', m);
    }
    if m: nat :| r == q && DivergesAt(r', q', m) {
      assert (r + r')[..|r| + m] == r + r'[..m] && (q + q')[..|r| + m] == q + q'[..m];
      assert DivergesAt(r + r', q + q', |r| + m);
    }
  }

  lemma DivergesDiffers(received: seq<Invocation>, queue: seq<Invocation>)
    requires Diverges(received, queue)
    ensures received != queue
  {
  }

  lemma ReceiveMore(stream: seq<byte>, pools: nat -> seq<Buffer>, k: nat)
    requires stream != []
    ensures
      var (event, rest, _) := ReceiveOne(stream, pools(k));
      Invocations(ReceiveAll(stream, pools, k))
      == (if event.Invoked? then [Invocation(event.name, event.id, event.payload)] else [])
         + Invocations(ReceiveAll(rest, pools, k + 1))
  {
    hide ReceiveOne, Invocations;
    var (event, rest, _) := ReceiveOne(stream, pools(k));
    assert ReceiveAll(stream, pools, k) == [event] + ReceiveAll(rest, pools, k + 1);
    InvocationsMore(event, ReceiveAll(rest, pools, k + 1));
  }

  /** The first frame gives back the first item exactly when that is well formed. */
  lemma FirstItem(before: seq<M.Header>, item: Invocation, tail: seq<byte>, pools: nat -> seq<Buffer>, k: nat)
    requires AllReady(pools)
    ensures
      var received := Invocations(ReceiveAll(M.Filled(before + [HeaderOf(item)]) + item.payload + tail, pools, k));
      if WellFormed(item) then received == [item] + Invocations(ReceiveAll(tail, pools, k + 1))
      else DivergesAt(received, [item], 0)
  {
    hide ReceiveOne, ReceiveAll, M.Filled, Invocations, HeaderOf, WellFormed, NulFree, Kept, Front;
    var stream := M.Filled(before + [HeaderOf(item)]) + item.payload + tail;
    var (event, rest, _) := ReceiveOne(stream, pools(k));
    FrameArrives(before, item, tail, pools(k));
    FrontReady(pools(k), DecodedLength(item));
    NamesReceived(rest, pools, k + 1);
    ReceiveMore(stream, pools, k);
    EventOfItem(item, tail, event, rest);
  }

  lemma FrontReady(pool: seq<Buffer>, size: nat)
    requires Ready(pool)
    ensures size > 0 ==> Front(pool, size, 0).size > 0
  {
  }

  /** The event of a frame names its item only if the item is well formed, and then nothing of it is left over. */
  lemma EventOfItem(item: Invocation, tail: seq<byte>, event: Event, rest: seq<byte>)
    requires
      var (name, id, n) := (Kept(item.name, 16), Kept(item.id, 16), DecodedLength(item));
      if name == [] then event == Ignored
      else event == Invoked(name, id, item.payload[..n]) && rest == item.payload[n..] + tail
    ensures WellFormed(item) ==> event == Invoked(item.name, item.id, item.payload) && rest == tail
    ensures !WellFormed(item) && event.Invoked? ==> Invocation(event.name, event.id, event.payload) != item
    ensures !WellFormed(item) && !event.Invoked? ==> !ProperName(item.name)
  {
    KeptIff(item.name, 16);
    KeptIff(item.id, 16);
    hide NulFree;
    var n := DecodedLength(item);
    assert n == |item.payload| ==> item.payload[..n] == item.payload && item.payload[n..] + tail == tail;
    assert item.name != [] && Kept(item.name, 16) == [] ==> item.name[0] == 0 && !NulFree(item.name) by {
      KeptEmpty(item.name);
    }
    hide Kept, DecodedLength;
  }

  lemma KeptEmpty(t: Text)
    ensures t != [] && Kept(t, 16) == [] ==> t[0] == 0 && !NulFree(t)
  {
  }

  predicate AllWellFormed(queue: seq<Invocation>) { forall j :: 0 <= j < |queue| ==> WellFormed(queue[j]) }

  lemma AllWellFormedSplit(queue: seq<Invocation>)
    requires queue != []
    ensures AllWellFormed(queue) <==> WellFormed(queue[0]) && AllWellFormed(queue[1..])
  {
    hide WellFormed;
    if AllWellFormed(queue[1..]) {
      forall j | 0 < j < |queue| ensures WellFormed(queue[j]) {
        assert queue[j] == queue[1..][j - 1];
      }
    }
  }

  /** What a receiver makes of the frames of a queue: the queue, or something else from the first item on that is
      not well formed. */
  lemma {:induction false} FramesRoundTrip(before: seq<M.Header>, queue: seq<Invocation>, pools: nat -> seq<Buffer>,
      k: nat)
    requires AllReady(pools)
    ensures
      var received := Invocations(ReceiveAll(SendFrom(before, queue), pools, k));
      if AllWellFormed(queue) then received == queue else Diverges(received, queue)
    decreases |queue|
  {
    hide M.Filled, WellFormed, HeaderOf, AllWellFormed, AllReady, Diverges, DivergesAt, Invocations, ReceiveAll,
      ReceiveOne, SendFrom;
    if queue == [] {
      NoFrames(before, pools, k);
    } else {
      var filled := before + [HeaderOf(queue[0])];
      var tail := SendFrom(filled, queue[1..]);
      FrameFirst(before, queue);
      FirstItem(before, queue[0], tail, pools, k);
      FramesRoundTrip(filled, queue[1..], pools, k + 1);
      AllWellFormedSplit(queue);
      FirstDiverges(queue, Invocations(ReceiveAll(SendFrom(before, queue), pools, k)),
                    Invocations(ReceiveAll(tail, pools, k + 1)), tail, pools, k + 1);
    }
  }

  lemma FrameFirst(before: seq<M.Header>, queue: seq<Invocation>)
    requires queue != []
    ensures
      var filled := before + [HeaderOf(queue[0])];
      SendFrom(before, queue) == M.Filled(filled) + queue[0].payload + SendFrom(filled, queue[1..])
  {
  }

  lemma NoFrames(before: seq<M.Header>, pools: nat -> seq<Buffer>, k: nat)
    ensures Invocations(ReceiveAll(SendFrom(before, []), pools, k)) == [] && AllWellFormed([])
  {
  }

  lemma FirstDiverges(queue: seq<Invocation>, received: seq<Invocation>, later: seq<Invocation>, tail: seq<byte>,
      pools: nat -> seq<Buffer>, k: nat)
    requires queue != [] && later == Invocations(ReceiveAll(tail, pools, k))
    requires if WellFormed(queue[0]) then received == [queue[0]] + later else DivergesAt(received, [queue[0]], 0)
    requires if AllWellFormed(queue[1..]) then later == queue[1..] else Diverges(later, queue[1..])
    ensures
      if WellFormed(queue[0]) && AllWellFormed(queue[1..]) then received == queue else Diverges(received, queue)
  {
    hide WellFormed, AllWellFormed, Invocations, ReceiveAll, Diverges;
    assert queue == [queue[0]] + queue[1..];
    NamesReceived(tail, pools, k);
    DivergesMore([queue[0]], [queue[0]], later, queue[1..]);
    DivergesHere(received, queue[0], queue[1..]);
  }

  lemma DivergesHere(received: seq<Invocation>, item: Invocation, rest: seq<Invocation>)
    ensures DivergesAt(received, [item], 0) ==> Diverges(received, [item] + rest)
  {
    hide ProperName;
    if DivergesAt(received, [item], 0) {
      assert DivergesAt(received, [item] + rest, 0);
    }
  }

  /** The whole stream: a receiver that always has buffers recovers exactly the queue that was sent if and only
      if every item has a proper name and id and a payload under 65536 bytes. */
  lemma StreamRoundTripIff(queue: seq<Invocation>, pools: nat -> seq<Buffer>)
    requires AllReady(pools)
    ensures Invocations(ReceiveAll(SendAll(queue), pools, 0)) == queue <==> AllWellFormed(queue)
  {
    hide Diverges;
    StreamArrives(queue, pools);
    if !AllWellFormed(queue) {
      DivergesDiffers(Invocations(ReceiveAll(SendAll(queue), pools, 0)), queue);
    }
  }

  lemma StreamArrives(queue: seq<Invocation>, pools: nat -> seq<Buffer>)
    requires AllReady(pools)
    ensures
      var received := Invocations(ReceiveAll(SendAll(queue), pools, 0));
      if AllWellFormed(queue) then received == queue else Diverges(received, queue)
  {
    if queue == [] {
      EmptyQueue(pools);
    } else {
      FramesRoundTrip([], queue, pools, 0);
    }
  }

  /** An empty queue is one header that the receiver ignores. */
  lemma EmptyQueue(pools: nat -> seq<Buffer>)
    ensures ReceiveAll(SendAll([]), pools, 0) == [Ignored]
  {
    var header := M.Filled([M.Header([], [], 0)]);
    M.FunctionRequestArrives([], M.Header([], [], 0));
    assert [] + [M.Header([], [], 0)] == [M.Header([], [], 0)];
    assert header + [] == header;
    HeaderArrives(header, [], Kept([], 16), Kept([], 16), 0, pools(0));
    var (event, rest, _) := ReceiveOne(header, pools(0));
    assert event == Ignored && rest == [];
    assert ReceiveAll(rest, pools, 1) == [];
  }

  /** A session calls receive only once on this connection: of a queue it gets the first item, and leaves the
      frames of all others unread. */
  lemma OneReceiveTakesOne(queue: seq<Invocation>, pool: seq<Buffer>)
    requires queue != [] && WellFormed(queue[0]) && Ready(pool)
    ensures
      var (event, rest, _) := ReceiveOne(SendAll(queue), pool);
      && event == Invoked(queue[0].name, queue[0].id, queue[0].payload)
      && rest == SendFrom([HeaderOf(queue[0])], queue[1..])
  {
    var item := queue[0];
    var filled := [] + [HeaderOf(item)];
    assert filled == [HeaderOf(item)];
    var tail := SendFrom(filled, queue[1..]);
    var (event, rest, _) := ReceiveOne(SendAll(queue), pool);
    FrameArrives([], item, tail, pool);
    hide ReceiveOne, M.Filled, HeaderOf;
    EventOfItem(item, tail, event, rest);
  }
}
