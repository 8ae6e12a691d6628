/** The local memory server's objects: the cache, the connections and their slots, a worker serving a request,
    and the client library at the other end. MemoryServer.dfy treats the same operations under concurrency. */
module LocalMemory {
  import opened Bytes
  import opened Wire
  import opened MemoryOps
  import opened MemoryMessages

  /** An object as the cache keeps it. The size is a size_t made from the 32-bit size field of a request. */
  datatype Object = Object(data: seq<byte>, size: nat)

  type Objects = map<Text, Object>

  /** An int32 converted to size_t. */
  function SizeT(n: int32): (size: nat) { if n < 0 then n + 0x1_0000_0000_0000_0000 else n }

  /** The locked hash map, used by one worker at a time. */
  class Cache {
    var objects: Objects

    constructor ()
      ensures objects == map[]
    {
      objects := map[];
    }

    /** insert keeps an entry that is there, but the assignment after it does not. */
    method Create(key: Text, obj: Object) returns (ret: bool)
      modifies this
      ensures objects == old(objects)[key := obj] && ret == (key !in old(objects))
    {
      ret := key !in objects;
      if ret {
        objects := objects[key := Object([], 0)];
      }
      objects := objects[key := obj];
    }

    method Put(key: Text, obj: Object) returns (ret: bool)
      modifies this
      ensures objects == (if key in old(objects) then old(objects)[key := obj] else old(objects))
      ensures ret == (key in old(objects))
    {
      ret := key in objects;
      if ret {
        objects := objects[key := obj];
      }
    }

    method Get(key: Text) returns (accessor: Option<Object>)
      ensures accessor == if key in objects then Some(objects[key]) else None
    {
      accessor := if key in objects then Some(objects[key]) else None;
    }

    method Erase(key: Text) returns (ret: bool)
      modifies this
      ensures objects == old(objects) - {key} && ret == (key in old(objects))
    {
      ret := key in objects;
      objects := objects - {key};
    }
  }

  /** The server's end of a connection. */
  class Connection {
    var incoming: seq<byte>
    var outgoing: seq<byte>
    var busy: bool
    var open: bool

    constructor (bytes: seq<byte>)
      ensures incoming == bytes && outgoing == [] && !busy && open
    {
      incoming, outgoing, busy, open := bytes, [], false, true;
    }

    /** A read fails without taking anything, or is complete unless the bytes run out. */
    method Read(n: nat, fails: bool) returns (data: Option<seq<byte>>)
      modifies this`incoming
      ensures fails ==> data == None && incoming == old(incoming)
      ensures !fails ==> data == Some(old(incoming)[..Available(old(incoming), n)])
      ensures !fails ==> incoming == old(incoming)[Available(old(incoming), n)..]
    {
      if fails {
        return None;
      }
      var k := Available(incoming, n);
      data := Some(incoming[..k]);
      incoming := incoming[k..];
    }
  }

  function Available(bytes: seq<byte>, n: nat): (k: nat)
    ensures k <= |bytes| && k <= n
  {
    if n < |bytes| then n else |bytes|
  }

  // ----- one request

  /** The operation that a header and its payload ask for; replies are not requests. */
  function OpOf(header: seq<byte>, data: seq<byte>): (op: Option<Op<Object>>)
    requires |header| == BUF_SIZE
  {
    var kind, name, obj := ParseType(header), ObjectName(header), Object(data, SizeT(Payload(header)));
    if kind == CREATE then Some(Create(name, obj))
    else if kind == GET then Some(Get(name))
    else if kind == PUT then Some(Put(name, obj))
    else if kind == DELETE then Some(Delete(name))
    else None
  }

  /** The payload field of a reply: -1 for a failure, otherwise the size of the object found, as an int32 again. */
  function ReplySize(reply: Reply<Object>): (size: int32) {
    if !reply.ok then -1 else if reply.body.None? then 0 else Wrap32(reply.body.value.size)
  }

  function ReplyBytes(header: seq<byte>, reply: Reply<Object>): (bytes: seq<byte>)
    requires |header| == BUF_SIZE
  {
    Fill(Zeros(BUF_SIZE), ReplyType(ParseType(header)), ObjectName(header), ReplySize(reply))
    + if reply.ok && reply.body.Some? then reply.body.value.data else []
  }

  /** An object came from a request: its size is that of its data, unless the request's field was negative. */
  predicate Sound(o: Object) {
    var n := Wrap32(o.size);
    o.size == SizeT(n) && |o.data| == if n > 0 then n else 0
  }

  predicate AllSound(s: Objects) { forall k :: k in s ==> Sound(s[k]) }

  function Effect(s: Objects, op: Option<Op<Object>>): (r: (Objects, Reply<Object>)) {
    if op.None? then (s, Reply(false, None)) else Do(s, op.value)
  }

  lemma SizeRoundTrip(n: int32)
    ensures Wrap32(SizeT(n)) == n
  {
  }

  /** A name that came out of a field is its own key. */
  lemma NameIsKey(header: seq<byte>, data: seq<byte>)
    requires |header| == BUF_SIZE && OpOf(header, data).Some?
    ensures Key(OpOf(header, data).value) == ObjectName(header)
  {
    var t := header[6..38];
    assert NulFree(FieldText(t)) && |FieldText(t)| <= NAME_SIZE;
    KeptFits(FieldText(t), NAME_SIZE);
    hide SizeT, Payload;
  }

  class Worker {
    const cache: Cache

    constructor (cache: Cache)
      ensures this.cache == cache
    {
      this.cache := cache;
    }

    /** The switch over the type of the request. */
    method Operate(header: seq<byte>, data: seq<byte>) returns (result: bool, accessor: Option<Object>)
      requires |header| == BUF_SIZE
      modifies cache
      ensures
        var (s, reply) := Effect(old(cache.objects), OpOf(header, data));
        cache.objects == s && Reply(result, accessor) == reply
    {
      var kind, name, obj := ParseType(header), ObjectName(header), Object(data, SizeT(Payload(header)));
      if kind in {CREATE, GET, PUT, DELETE} {
        NameIsKey(header, data);
      }
      hide ParseType, ObjectName, Kept, SizeT, Payload;
      result, accessor := false, None;
      if kind == CREATE {
        result := cache.Create(name, obj);
      } else if kind == GET {
        accessor := cache.Get(name);
        result := accessor.Some?;
      } else if kind == PUT {
        result := cache.Put(name, obj);
      } else if kind == DELETE {
        result := cache.Erase(name);
      }
    }

    /** handle_session_message. When the payload's read fails or ends early the worker leaves without clearing the
        flag and without a reply; otherwise the flag is cleared, the operation done and the reply written. */
    method HandleSessionMessage(header: seq<byte>, conn: Connection, fails: bool) returns (served: bool)
      requires |header| == BUF_SIZE && AllSound(cache.objects)
      modifies conn, cache
      ensures AllSound(cache.objects) && conn.open == old(conn.open)
      ensures
        var n := if Payload(header) > 0 then Payload(header) else 0;
        var in0 := old(conn.incoming);
        served == (n == 0 || (!fails && |in0| >= n))
        && (if served then
              var (s, reply) := Effect(old(cache.objects), OpOf(header, in0[..n]));
              && cache.objects == s && conn.outgoing == old(conn.outgoing) + ReplyBytes(header, reply)
              && conn.incoming == in0[n..] && !conn.busy
            else
              && cache.objects == old(cache.objects) && conn.outgoing == old(conn.outgoing)
              && conn.incoming == (if fails then in0 else []) && conn.busy == old(conn.busy))
    {
      hide ParseType, ObjectName, Kept, Fill, Wrap32, SizeT;
      var payload := Payload(header);
      SizeRoundTrip(payload);
      var data: seq<byte> := [];
      if payload > 0 {
        var recv := conn.Read(payload, fails);
        if recv.None? || |recv.value| < payload {
          return false;
        }
        data := recv.value;
      }
      conn.busy := false;
      EffectSound(cache.objects, header, data);
      hide Payload, Sound;
      var result, accessor := Operate(header, data);
      var retPayload: int32;
      if result {
        retPayload := if accessor.None? then 0 else Wrap32(accessor.value.size);
      } else {
        retPayload := -1;
      }
      WriteReply(header, conn, Reply(result, accessor), retPayload);
      served := true;
    }

    /** The header of the reply, then the body if its size is positive. */
    method WriteReply(header: seq<byte>, conn: Connection, reply: Reply<Object>, retPayload: int32)
      requires |header| == BUF_SIZE && retPayload == ReplySize(reply) && (reply.body.Some? ==> Sound(reply.body.value))
      modifies conn`outgoing
      ensures conn.outgoing == old(conn.outgoing) + ReplyBytes(header, reply)
    {
      hide ParseType, ObjectName, Kept, Fill, Wrap32, SizeT;
      var msg := Fill(Zeros(BUF_SIZE), ReplyType(ParseType(header)), ObjectName(header), retPayload);
      conn.outgoing := conn.outgoing + msg;
      if retPayload > 0 {
        conn.outgoing := conn.outgoing + reply.body.value.data[..retPayload];
      }
    }
  }

  /** Objects made from requests are sound, and so is what is found later. */
  lemma EffectSound(s: Objects, header: seq<byte>, data: seq<byte>)
    requires AllSound(s) && |header| == BUF_SIZE && |data| == (if Payload(header) > 0 then Payload(header) else 0)
    ensures
      var (s', reply) := Effect(s, OpOf(header, data));
      AllSound(s') && (reply.body.Some? ==> Sound(reply.body.value))
  {
    SizeRoundTrip(Payload(header));
    assert Sound(Object(data, SizeT(Payload(header))));
    hide Sound, ParseType, ObjectName, Kept, SizeT, Payload;
  }

  // ----- the client library, with a worker at the other end

  /** The largest object whose size a 32-bit field can carry. */
  const MAX_SIZE: nat := 0x7FFF_FFFF

  type Value = seq<byte>

  function DataOf(op: Op<Value>): (data: Value) {
    match op
    case Create(_, value) => value
    case Put(_, value) => value
    case _ => []
  }

  function KindOf(op: Op<Value>): (kind: int16) {
    match op case Create(_, _) => CREATE case Get(_) => GET case Put(_, _) => PUT case Delete(_) => DELETE
  }

  /** What a client writes for an operation, before the data. */
  function RequestHeader(op: Op<Value>): (header: seq<byte>)
    requires |DataOf(op)| <= MAX_SIZE
  {
    Fill(Zeros(BUF_SIZE), KindOf(op), op.name, |DataOf(op)|)
  }

  /** The operation as the worker carries it out. */
  function Stored(op: Op<Value>): (stored: Op<Object>) {
    match op
    case Create(name, value) => Create(name, Object(value, |value|))
    case Get(name) => Get(name)
    case Put(name, value) => Put(name, Object(value, |value|))
    case Delete(name) => Delete(name)
  }

  /** A request reaches the worker as the operation on the name that fits, and that acts like the one asked for. */
  lemma RequestArrives(s: Objects, op: Op<Value>)
    requires |DataOf(op)| <= MAX_SIZE
    ensures |RequestHeader(op)| == BUF_SIZE && Payload(RequestHeader(op)) == |DataOf(op)|
    ensures Effect(s, OpOf(RequestHeader(op), DataOf(op))) == Do(s, Stored(op))
  {
    hide Fill, Payload, ObjectName, ParseType, Kept;
    var header := RequestHeader(op);
    MessageReads(Zeros(BUF_SIZE), KindOf(op), op.name, |DataOf(op)|);
    assert OpOf(header, DataOf(op)) == Some(Stored(op).(name := Kept(op.name, NAME_SIZE)));
    hide OpOf, RequestHeader, KindOf, DataOf;
    KeptTwice(op.name);
  }

  /** A header whose first two bytes are not those of a request changes nothing and is answered with a failure. */
  lemma OthersRefused(s: Objects, header: seq<byte>, data: seq<byte>)
    requires |header| == BUF_SIZE && header[0..2] !in {[100, 0], [101, 0], [102, 0], [103, 0]}
    ensures Effect(s, OpOf(header, data)) == (s, Reply(false, None))
    ensures Payload(ReplyBytes(header, Reply(false, None))[..BUF_SIZE]) == -1
    ensures |ReplyBytes(header, Reply(false, None))| == BUF_SIZE
  {
    hide ParseType, Fill, ObjectName, Payload, ReplyType, ReplyBytes, Kept;
    NoRequest(header);
    ReplyArrives(header, Reply(false, None));
    RefusalSize(header);
  }

  lemma NoRequest(header: seq<byte>)
    requires |header| == BUF_SIZE && header[0..2] !in {[100, 0], [101, 0], [102, 0], [103, 0]}
    ensures ParseType(header) !in {CREATE, GET, PUT, DELETE}
  {
    assert header[0..2] == [header[0], header[1]];
  }

  lemma RefusalSize(header: seq<byte>)
    requires |header| == BUF_SIZE
    ensures |ReplyBytes(header, Reply(false, None))| == BUF_SIZE
  {
    hide Fill, ParseType, ObjectName;
  }

  lemma KeptTwice(t: Text)
    ensures Kept(Kept(t, NAME_SIZE), NAME_SIZE) == Kept(t, NAME_SIZE)
  {
    var k := Kept(t, NAME_SIZE);
    assert NulFree(t[..StrLen(t)]);
    KeptFits(k, NAME_SIZE);
  }

  /** The type of the reply to a request. */
  function Answers(kind: int16): (reply: int16) {
    if kind == CREATE then 104 else if kind == GET then 105 else if kind == PUT then 106
    else if kind == DELETE then 107 else UNKNOWN
  }

  /** The reply as the client takes it apart: which request it answers, the object's name, an error or not, and the body
      that the size announces. */
  lemma ReplyArrives(header: seq<byte>, reply: Reply<Object>)
    requires |header| == BUF_SIZE && (reply.body.Some? ==> Sound(reply.body.value))
    ensures
      var bytes := ReplyBytes(header, reply);
      && |bytes| >= BUF_SIZE && Payload(bytes[..BUF_SIZE]) == ReplySize(reply)
      && ParseType(bytes[..BUF_SIZE]) == Answers(ParseType(header))
      && ObjectName(bytes[..BUF_SIZE]) == ObjectName(header)
      && bytes[BUF_SIZE..] == if reply.ok && reply.body.Some? then reply.body.value.data else []
  {
    hide Fill, ObjectName, ParseType, Payload, Sound, ReplySize, ReplyType, Kept, Answers;
    var kind := ReplyType(ParseType(header));
    MessageReads(Zeros(BUF_SIZE), kind, ObjectName(header), ReplySize(reply));
    ReplyKind(header);
    NameKept(header);
    var msg := Fill(Zeros(BUF_SIZE), kind, ObjectName(header), ReplySize(reply));
    var bytes := ReplyBytes(header, reply);
    assert bytes[..BUF_SIZE] == msg && |msg| == BUF_SIZE;
  }

  lemma ReplyKind(header: seq<byte>)
    requires |header| == BUF_SIZE
    ensures
      var kind := ReplyType(ParseType(header));
      (if CREATE <= kind <= DELETE_REPLY then kind else UNKNOWN) == Answers(ParseType(header))
  {
  }

  lemma NameKept(header: seq<byte>)
    requires |header| == BUF_SIZE
    ensures Kept(ObjectName(header), NAME_SIZE) == ObjectName(header)
  {
    assert NulFree(ObjectName(header));
    KeptFits(ObjectName(header), NAME_SIZE);
  }

  lemma FoundSound(s: Objects, op: Op<Object>)
    requires AllSound(s)
    ensures var reply := Do(s, op).1; reply.body.Some? ==> Sound(reply.body.value)
  {
    hide Kept, Sound;
  }

  /** praas::global::Memory. The epoll thread and a worker act between its writes and its reads. */
  class Memory {
    const connection: Connection
    const server: Worker

    constructor (connection: Connection, server: Worker)
      ensures this.connection == connection && this.server == server
    {
      this.connection, this.server := connection, server;
    }

    /** Writes a request; the epoll thread reads its header and a worker serves it. */
    method Exchange(op: Op<Value>, msg: SessionMessage)
      requires msg.buffer.Length == BUF_SIZE && |DataOf(op)| <= MAX_SIZE && AllSound(server.cache.objects)
      requires connection.incoming == [] && connection.outgoing == []
      modifies msg.buffer, connection, server.cache
      ensures connection.incoming == [] && AllSound(server.cache.objects)
      ensures
        var (s, reply) := Do(old(server.cache.objects), Stored(op));
        && server.cache.objects == s && connection.outgoing == ReplyBytes(RequestHeader(op), reply)
        && (reply.body.Some? ==> Sound(reply.body.value))
    {
      hide Fill, ParseType, ObjectName, Payload, ReplyBytes, OpOf, Key, KindOf, Do, Effect, Stored, AllSound, Sound;
      RequestArrives(server.cache.objects, op);
      FoundSound(server.cache.objects, Stored(op));
      MessageReads(msg.buffer[..], KindOf(op), op.name, |DataOf(op)|);
      msg.Send(KindOf(op), op.name, |DataOf(op)|);
      connection.incoming := msg.buffer[..] + DataOf(op);
      var header := connection.Read(BUF_SIZE, false);
      assert header.value == RequestHeader(op) && connection.incoming == DataOf(op);
      hide RequestHeader;
      assert connection.incoming[..|DataOf(op)|] == DataOf(op);
      var served := server.HandleSessionMessage(header.value, connection, false);
    }

    /** One client alone: create stores the object and reports whether the name was new. */
    method Create(id: Text, obj: Value) returns (ok: bool)
      requires |obj| <= MAX_SIZE && AllSound(server.cache.objects)
      requires connection.incoming == [] && connection.outgoing == []
      modifies connection, server.cache
      ensures connection.incoming == [] && connection.outgoing == [] && AllSound(server.cache.objects)
      ensures
        var k := Kept(id, NAME_SIZE);
        && server.cache.objects == old(server.cache.objects)[k := Object(obj, |obj|)]
        && ok == (k !in old(server.cache.objects))
    {
      var msg := new SessionMessage();
      ghost var op := Op.Create(id, obj);
      Exchange(Op.Create(id, obj), msg);
      ReplyArrives(RequestHeader(op), Do(old(server.cache.objects), Stored(op)).1);
      hide ReplyBytes, Payload, RequestHeader, Kept;
      var reply := TakeReply(BUF_SIZE);
      ok := !IsError(reply);
    }

    /** get gives back the bytes that were stored, or nothing. An object from a request with a negative size field
        reads as missing. */
    method Get(id: Text) returns (obj: Option<Value>)
      requires AllSound(server.cache.objects)
      requires connection.incoming == [] && connection.outgoing == []
      modifies connection, server.cache
      ensures connection.incoming == [] && connection.outgoing == []
      ensures server.cache.objects == old(server.cache.objects)
      ensures
        var k := Kept(id, NAME_SIZE);
        obj == if k in server.cache.objects && server.cache.objects[k].size <= MAX_SIZE
               then Some(server.cache.objects[k].data) else None
    {
      var msg := new SessionMessage();
      ghost var op: Op<Value> := Op.Get(id);
      Exchange(Op.Get(id), msg);
      ghost var expected := Do(old(server.cache.objects), Stored(op)).1;
      ReplyArrives(RequestHeader(op), expected);
      hide ReplyBytes, RequestHeader, Kept, Payload;
      var reply := TakeReply(BUF_SIZE);
      if IsError(reply) {
        return None;
      }
      var body := TakeReply(Payload(reply));
      assert body == expected.body.value.data;
      obj := Some(body);
    }

    method TakeReply(n: nat) returns (data: seq<byte>)
      requires n <= |connection.outgoing|
      modifies connection`outgoing
      ensures data == old(connection.outgoing)[..n] && connection.outgoing == old(connection.outgoing)[n..]
    {
      data := connection.outgoing[..n];
      connection.outgoing := connection.outgoing[n..];
    }
  }

  // ----- the slots of connections, and the epoll thread

  const MAX_CONNECTIONS: nat := 64

  class SessionConnections {
    const active: array<bool>
    const connections: array<Connection>

    /** Every slot has its own object, for good. */
    ghost predicate Valid()
      reads this, connections
    {
      active.Length == MAX_CONNECTIONS && connections.Length == MAX_CONNECTIONS && NoDup(connections[..])
    }

    constructor ()
      ensures Valid() && fresh(active) && fresh(connections) && fresh(connections[..])
      ensures forall k :: 0 <= k < MAX_CONNECTIONS ==> !active[k]
    {
      active := new bool[MAX_CONNECTIONS](_ => false);
      var first := new Connection([]);
      connections := new Connection[MAX_CONNECTIONS]((_: nat) => first);
      new;
      var n := 0;
      while n < MAX_CONNECTIONS
        invariant n <= MAX_CONNECTIONS && fresh(connections[..])
        invariant forall k :: 0 <= k < MAX_CONNECTIONS ==> !active[k]
        invariant forall i, j :: 0 <= i < j < n ==> connections[i] != connections[j]
      {
        var connection := new Connection([]);
        connections[n] := connection;
        n := n + 1;
      }
    }

    /** The first slot that is not active takes the socket: its object is overwritten in place. Without a free slot
        nothing changes. */
    method Insert(socket: seq<byte>) returns (slot: Option<nat>)
      requires Valid()
      modifies active, connections[..]
      ensures Valid() && connections[..] == old(connections[..])
      ensures slot.None? <==> forall k :: 0 <= k < MAX_CONNECTIONS ==> old(active[k])
      ensures slot.None? ==> active[..] == old(active[..])
      ensures slot.Some? ==>
        && slot.value < MAX_CONNECTIONS && !old(active[slot.value])
        && (forall k :: 0 <= k < slot.value ==> old(active[k]))
        && active[..] == old(active[..])[slot.value := true]
        && connections[slot.value].incoming == socket && connections[slot.value].outgoing == []
        && connections[slot.value].open && !connections[slot.value].busy
      ensures forall k :: 0 <= k < MAX_CONNECTIONS && (slot.Some? ==> k != slot.value) ==> unchanged(connections[k])
    {
      var pos := 0;
      while pos < MAX_CONNECTIONS && active[pos]
        invariant pos <= MAX_CONNECTIONS && forall k :: 0 <= k < pos ==> active[k]
      {
        pos := pos + 1;
      }
      if pos == MAX_CONNECTIONS {
        return None;
      }
      active[pos] := true;
      var target := connections[pos];
      target.incoming, target.outgoing, target.busy, target.open := socket, [], false, true;
      slot := Some(pos);
    }

    method Release(pos: nat)
      requires Valid() && pos < MAX_CONNECTIONS
      modifies active, connections[pos]
      ensures active[..] == old(active[..])[pos := false] && !connections[pos].open
      ensures connections[pos].incoming == old(connections[pos].incoming)
      ensures connections[pos].busy == old(connections[pos].busy)
    {
      active[pos] := false;
      connections[pos].open := false;
    }

    /** The epoll thread on an event of the connection in this slot: nothing while the flag is set; the release of
        the slot when the read fails or the stream ends; otherwise a header for a worker, and the flag is set after
        the header was handed over. */
    method Poll(pos: nat, fails: bool) returns (task: Option<seq<byte>>)
      requires Valid() && pos < MAX_CONNECTIONS
      modifies active, connections[pos]
      ensures
        var conn, in0 := connections[pos], old(connections[pos].incoming);
        if old(conn.busy) then
          && task.None? && conn.incoming == in0 && conn.busy && conn.open == old(conn.open)
          && active[..] == old(active[..])
        else if fails || in0 == [] then
          task.None? && conn.incoming == in0 && !conn.open && !conn.busy && active[..] == old(active[..])[pos := false]
        else
          && task == Some(in0[..Available(in0, BUF_SIZE)]) && conn.incoming == in0[Available(in0, BUF_SIZE)..]
          && conn.busy && conn.open == old(conn.open) && active[..] == old(active[..])
    {
      var conn := connections[pos];
      if conn.busy {
        return None;
      }
      var msg := conn.Read(BUF_SIZE, fails);
      if msg.None? || |msg.value| == 0 {
        Release(pos);
        return None;
      }
      task := msg;
      conn.busy := true;
    }
  }
}
