/** What the operations of the local memory mean: a plain map. Names are cut to the 32 bytes of their field. */
module MemoryOps {
  import opened Bytes
  import opened Wire

  datatype Op<V> =
    | Create(name: Text, value: V)
    | Get(name: Text)
    | Put(name: Text, value: V)
    | Delete(name: Text)

  datatype Reply<V> = Reply(ok: bool, body: Option<V>)

  const NAME_SIZE: nat := 32

  function Key<V>(op: Op<V>): (k: Text) { Kept(op.name, NAME_SIZE) }

  /** Create is an upsert that reports whether the key was new; put updates only a key that exists. */
  function Do<V>(s: map<Text, V>, op: Op<V>): (r: (map<Text, V>, Reply<V>)) {
    var k := Key(op);
    match op
    case Create(_, v) => (s[k := v], Reply(k !in s, None))
    case Get(_) => (s, if k in s then Reply(true, Some(s[k])) else Reply(false, None))
    case Put(_, v) => (if k in s then s[k := v] else s, Reply(k in s, None))
    case Delete(_) => (s - {k}, Reply(k in s, None))
  }

  datatype Entry<V> = Entry(id: nat, op: Op<V>, reply: Reply<V>)

  /** The map after a list of operations. */
  function Replay<V>(log: seq<Entry<V>>): (s: map<Text, V>) {
    if log == [] then map[] else Do(Replay(log[..|log| - 1]), log[|log| - 1].op).0
  }

  /** Every reply is the one the map gives in this order. */
  predicate Legal<V(==)>(log: seq<Entry<V>>) {
    log != [] ==>
      && Legal(log[..|log| - 1])
      && log[|log| - 1].reply == Do(Replay(log[..|log| - 1]), log[|log| - 1].op).1
  }

  lemma {:induction false} LogMore<V>(log: seq<Entry<V>>, e: Entry<V>)
    ensures Replay(log + [e]) == Do(Replay(log), e.op).0
    ensures Legal(log + [e]) <==> Legal(log) && e.reply == Do(Replay(log), e.op).1
  {
    assert (log + [e])[..|log + [e]| - 1] == log;
  }

  /** What a client may expect to find under a key: the value of the last create or successful put, unless the last
      operation that counts was a delete. */
  function LastWrite<V>(log: seq<Entry<V>>, k: Text): (v: Option<V>)
    decreases |log|
  {
    if log == [] then None
    else
      var e, before := log[|log| - 1], log[..|log| - 1];
      if Kept(e.op.name, 32) != k then LastWrite(before, k)
      else
        match e.op
        case Create(_, v) => Some(v)
        case Put(_, v) => if e.reply.ok then Some(v) else LastWrite(before, k)
        case Delete(_) => None
        case Get(_) => LastWrite(before, k)
  }

  /** In every legal order the map holds what was written last. */
  lemma {:induction false} ReplayIsLastWrite<V>(log: seq<Entry<V>>, k: Text)
    requires Legal(log)
    ensures LastWrite(log, k) == if k in Replay(log) then Some(Replay(log)[k]) else None
  {
    hide Kept;
    if log != [] {
      ReplayIsLastWrite(log[..|log| - 1], k);
    }
  }

  /** In every legal order a get returns the last write before it; create and put succeed exactly if nothing and
      something was there, and delete exactly if there was something to delete. */
  lemma {:induction false} RepliesFollowWrites<V>(log: seq<Entry<V>>, j: nat)
    requires Legal(log) && j < |log|
    ensures
      var (e, there) := (log[j], LastWrite(log[..j], Kept(log[j].op.name, 32)));
      match e.op
      case Get(_) => e.reply == Reply(there.Some?, there)
      case Create(_, _) => e.reply == Reply(there.None?, None)
      case Put(_, _) => e.reply == Reply(there.Some?, None)
      case Delete(_) => e.reply == Reply(there.Some?, None)
  {
    hide Kept, LastWrite;
    LegalPrefix(log, j);
    ReplayIsLastWrite(log[..j], Kept(log[j].op.name, 32));
  }

  lemma {:induction false} LegalPrefix<V>(log: seq<Entry<V>>, j: nat)
    requires Legal(log) && j < |log|
    ensures Legal(log[..j]) && log[j].reply == Do(Replay(log[..j]), log[j].op).1
    decreases |log|
  {
    hide Do, Replay;
    if j < |log| - 1 {
      LegalPrefix(log[..|log| - 1], j);
      assert log[..|log| - 1][..j] == log[..j];
    }
  }
}
