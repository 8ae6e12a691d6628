/** The local memory server with any number of synchronous clients: each waits for its reply before it sends
    the next request. Workers serve requests of different clients at the same time. The concurrent hash map
    links a key to a node; an accessor locks a node for one writer or many readers. A delete unlinks its node at
    once, whoever holds an accessor of it, and then waits for them before the node is destroyed; meanwhile the
    key can be created anew. One action is one moment at which another worker can get in between. */
module MemoryServer {
  import opened Bytes
  import opened MemoryOps

  type Value = seq<byte>
  type Store = map<Text, Value>
  type Operation = Op<Value>
  type Answer = Reply<Value>
  type Log = seq<Entry<Value>>

  /** How far the worker has come with a request.
      Queued: nothing done in the map. Writing: create or put holds the write accessor of a node and knows its
      reply, but has not stored its value. Opened: get holds the read accessor. HeaderWritten: likewise, and the
      reply's header with this payload size is on its way. Unlinked: delete has taken the node out of the map.
      Finished: the reply is complete. */
  datatype Stage =
    | Queued
    | Writing(node: nat, reply: Answer)
    | Opened(node: nat)
    | HeaderWritten(node: nat, size: nat)
    | Unlinked(node: nat)
    | Finished(reply: Answer)

  datatype Request = Request(id: nat, op: Operation, stage: Stage)

  datatype Event = Invoked(id: nat, op: Operation) | Responded(id: nat, reply: Answer)

  /** `table` links keys to nodes, `nodes` are those not destroyed yet, `unused` is the next one. `lingering` are
      read accessors whose reply is written but which were not released. Auxiliary: `history` is what the
      clients see, `log` the order in which requests took effect, `pos` the index of each request in it. */
  datatype State = State(
    table: map<Text, nat>, nodes: map<nat, Value>, unused: nat,
    clients: map<nat, Request>, lingering: multiset<nat>, next: nat,
    history: seq<Event>, log: Log, pos: map<nat, nat>)

  const INIT := State(map[], map[], 0, map[], multiset{}, 0, [], [], map[])

  datatype Action =
    | Invoke(c: nat, op: Operation)
    | InsertKey(c: nat)
    | Locate(c: nat)
    | Assign(c: nat)
    | Open(c: nat)
    | WriteHeader(c: nat)
    | WriteBody(c: nat)
    | Release(node: nat)
    | Unlink(c: nat)
    | Destroy(c: nat)
    | Respond(c: nat)

  predicate Writes(r: Request, n: nat) { r.stage.Writing? && r.stage.node == n }

  predicate Reads(r: Request, n: nat) { (r.stage.Opened? || r.stage.HeaderWritten?) && r.stage.node == n }

  predicate NoWriter(clients: map<nat, Request>, n: nat) { forall c :: c in clients ==> !Writes(clients[c], n) }

  predicate Free(st: State, n: nat) {
    && NoWriter(st.clients, n) && n !in st.lingering
    && forall c :: c in st.clients ==> !Reads(st.clients[c], n)
  }

  predicate At(st: State, c: nat, stage: Stage) { c in st.clients && st.clients[c].stage == stage }

  /** A lookup takes the accessor of the linked node while it still holds the bucket, so both are one step. */
  predicate Enabled(st: State, a: Action) {
    match a
    case Invoke(c, op) => c !in st.clients
    case InsertKey(c) =>
      && At(st, c, Queued) && st.clients[c].op.Create?
      && (KeyOf(st, c) in st.table ==> Free(st, st.table[KeyOf(st, c)]))
    case Locate(c) =>
      && At(st, c, Queued) && st.clients[c].op.Put?
      && (KeyOf(st, c) in st.table ==> Free(st, st.table[KeyOf(st, c)]))
    case Assign(c) => c in st.clients && st.clients[c].stage.Writing? && HasValue(st.clients[c].op)
    case Open(c) =>
      && At(st, c, Queued) && st.clients[c].op.Get?
      && (KeyOf(st, c) in st.table ==>
            NoWriter(st.clients, st.table[KeyOf(st, c)]) && st.table[KeyOf(st, c)] in st.nodes)
    case WriteHeader(c) => c in st.clients && st.clients[c].stage.Opened? && st.clients[c].stage.node in st.nodes
    case WriteBody(c) => c in st.clients && st.clients[c].stage.HeaderWritten? && st.clients[c].stage.node in st.nodes
    case Release(n) => n in st.lingering
    case Unlink(c) => At(st, c, Queued) && st.clients[c].op.Delete?
    case Destroy(c) => c in st.clients && st.clients[c].stage.Unlinked? && Free(st, st.clients[c].stage.node)
    case Respond(c) => c in st.clients && st.clients[c].stage.Finished?
  }

  function KeyOf(st: State, c: nat): (k: Text)
    requires c in st.clients
  {
    Key(st.clients[c].op)
  }

  predicate HasValue(op: Operation) { op.Create? || op.Put? }

  function SetStage(st: State, c: nat, stage: Stage): (st': State)
    requires c in st.clients
  {
    st.(clients := st.clients[c := st.clients[c].(stage := stage)])
  }

  /** The request of client c takes effect here. */
  function Logged(st: State, c: nat, reply: Answer): (st': State)
    requires c in st.clients
  {
    st.(log := st.log + [Entry(st.clients[c].id, st.clients[c].op, reply)], pos := st.pos[st.clients[c].id := |st.log|])
  }

  function Effect(st: State, c: nat, reply: Answer, stage: Stage): (st': State)
    requires c in st.clients
  {
    SetStage(Logged(st, c, reply), c, stage)
  }

  const OK: Answer := Reply(true, None)
  const FAILED: Answer := Reply(false, None)

  function Apply(st: State, a: Action): (st': State)
    requires Enabled(st, a)
  {
    match a
    case Invoke(c, op) =>
      st.(clients := st.clients[c := Request(st.next, op, Queued)], next := st.next + 1,
          history := st.history + [Invoked(st.next, op)])
    case InsertKey(c) =>
      var k := KeyOf(st, c);
      if k in st.table then Effect(st, c, FAILED, Writing(st.table[k], FAILED))
      else
        Effect(st, c, OK, Writing(st.unused, OK)).(
          table := st.table[k := st.unused], nodes := st.nodes[st.unused := []], unused := st.unused + 1)
    case Locate(c) =>
      var k := KeyOf(st, c);
      if k in st.table then Effect(st, c, OK, Writing(st.table[k], OK)) else Effect(st, c, FAILED, Finished(FAILED))
    case Assign(c) =>
      var r := st.clients[c];
      SetStage(st, c, Finished(r.stage.reply)).(nodes := st.nodes[r.stage.node := r.op.value])
    case Open(c) =>
      var k := KeyOf(st, c);
      if k in st.table then Effect(st, c, Reply(true, Some(st.nodes[st.table[k]])), Opened(st.table[k]))
      else Effect(st, c, FAILED, Finished(FAILED))
    case WriteHeader(c) =>
      var n := st.clients[c].stage.node;
      SetStage(st, c, HeaderWritten(n, |st.nodes[n]|))
    case WriteBody(c) =>
      var HeaderWritten(n, size) := st.clients[c].stage;
      SetStage(st, c, Finished(Reply(true, Some(if size > 0 then st.nodes[n] else [])))).(
        lingering := st.lingering + multiset{n})
    case Release(n) => st.(lingering := st.lingering - multiset{n})
    case Unlink(c) =>
      var k := KeyOf(st, c);
      if k in st.table then Effect(st, c, OK, Unlinked(st.table[k])).(table := st.table - {k})
      else Effect(st, c, FAILED, Finished(FAILED))
    case Destroy(c) => SetStage(st, c, Finished(OK)).(nodes := st.nodes - {st.clients[c].stage.node})
    case Respond(c) =>
      st.(clients := st.clients - {c},
          history := st.history + [Responded(st.clients[c].id, st.clients[c].stage.reply)])
  }

  function Exec(acts: seq<Action>): (st: Option<State>) {
    if acts == [] then Some(INIT)
    else
      match Exec(acts[..|acts| - 1])
      case None => None
      case Some(st) => if Enabled(st, acts[|acts| - 1]) then Some(Apply(st, acts[|acts| - 1])) else None
  }

  // ----- the invariant: nodes and accessors

  predicate Holds(r: Request, n: nat) { Writes(r, n) || Reads(r, n) }

  /** Different keys have different nodes, all of which exist. */
  ghost predicate TableOk(table: map<Text, nat>, nodes: map<nat, Value>, unused: nat) {
    && (forall k :: k in table ==> table[k] in nodes)
    && (forall k, l :: k in table && l in table && table[k] == table[l] ==> k == l)
    && (forall n :: n in nodes ==> n < unused)
  }

  /** No accessor dangles. */
  ghost predicate HeldOk(clients: map<nat, Request>, lingering: multiset<nat>, nodes: map<nat, Value>) {
    && (forall c, n :: c in clients && Holds(clients[c], n) ==> n in nodes)
    && (forall n :: n in lingering ==> n in nodes)
  }

  /** Accessors of one node exclude each other unless all of them read. */
  ghost predicate LocksOk(clients: map<nat, Request>, lingering: multiset<nat>) {
    && (forall c, d, n :: c in clients && d in clients && c != d && Writes(clients[c], n) ==> !Holds(clients[d], n))
    && (forall c, n :: c in clients && Writes(clients[c], n) ==> n !in lingering)
  }

  predicate Unlinks(r: Request, n: nat) { r.stage.Unlinked? && r.stage.node == n }

  /** A node that a delete took out of the map is its own to destroy. */
  ghost predicate UnlinkedOk(clients: map<nat, Request>, table: map<Text, nat>, nodes: map<nat, Value>) {
    && (forall c, n :: c in clients && Unlinks(clients[c], n) ==> n in nodes)
    && (forall c, n, k :: c in clients && Unlinks(clients[c], n) && k in table ==> table[k] != n)
    && (forall c, d, n :: c in clients && d in clients && Unlinks(clients[c], n) && Unlinks(clients[d], n) ==> c == d)
  }

  ghost predicate NodesPart(st: State) {
    && TableOk(st.table, st.nodes, st.unused)
    && HeldOk(st.clients, st.lingering, st.nodes)
    && LocksOk(st.clients, st.lingering)
    && UnlinkedOk(st.clients, st.table, st.nodes)
  }

  // ----- the invariant: contents

  /** The abstract map has the linked keys; a linked node has the abstract value, or has a writer that will
      store it. */
  ghost predicate ContentsOk(table: map<Text, nat>, nodes: map<nat, Value>, clients: map<nat, Request>, s: Store) {
    && s.Keys == table.Keys
    && (forall k, c :: k in table && c in clients && Writes(clients[c], table[k]) ==>
          HasValue(clients[c].op) && s[k] == clients[c].op.value)
    && (forall k :: k in table && NoWriter(clients, table[k]) ==> table[k] in nodes && s[k] == nodes[table[k]])
  }

  /** A request is in the log exactly when it took effect, with the reply its client gets. */
  ghost predicate RequestOk(r: Request, nodes: map<nat, Value>, log: Log, pos: map<nat, nat>) {
    if r.stage.Queued? then r.id !in pos
    else
      && r.id in pos && pos[r.id] < |log| && log[pos[r.id]].op == r.op
      && var reply := log[pos[r.id]].reply;
         match r.stage
         case Writing(_, mine) => HasValue(r.op) && reply == mine
         case Opened(n) => n in nodes && reply == Reply(true, Some(nodes[n]))
         case HeaderWritten(n, size) => n in nodes && reply == Reply(true, Some(nodes[n])) && size == |nodes[n]|
         case Unlinked(_) => reply == OK
         case Finished(mine) => reply == mine
         case Queued => true
  }

  ghost predicate RequestsOk(clients: map<nat, Request>, nodes: map<nat, Value>, log: Log, pos: map<nat, nat>) {
    forall c :: c in clients ==> RequestOk(clients[c], nodes, log, pos)
  }

  ghost predicate IdsOk(clients: map<nat, Request>, next: nat, log: Log, pos: map<nat, nat>) {
    && (forall c :: c in clients ==> clients[c].id < next)
    && (forall c, d :: c in clients && d in clients && c != d ==> clients[c].id != clients[d].id)
    && (forall i :: i in pos ==> i < next && pos[i] < |log| && log[pos[i]].id == i)
    && (forall p :: 0 <= p < |log| ==> log[p].id in pos && pos[log[p].id] == p)
  }

  /** What the clients saw agrees with the log, and so does the order in which they saw it. */
  ghost predicate HistoryOk(history: seq<Event>, next: nat, log: Log, pos: map<nat, nat>) {
    && (forall j :: 0 <= j < |history| ==> history[j].id < next)
    && (forall j :: 0 <= j < |history| && history[j].Responded? ==>
          history[j].id in pos && pos[history[j].id] < |log| && log[pos[history[j].id]].reply == history[j].reply)
    && InvokedOnce(history)
    && (forall i, j ::
          (0 <= i < j < |history| && history[i].Responded? && history[j].Invoked? && history[j].id in pos) ==>
          history[i].id in pos && pos[history[i].id] < pos[history[j].id])
  }

  /** In a history every request is invoked at most once. */
  ghost predicate InvokedOnce(history: seq<Event>) {
    forall i, j :: 0 <= i < j < |history| && history[i].Invoked? && history[j].Invoked? ==>
      history[i].id != history[j].id
  }

  ghost predicate WasInvoked(history: seq<Event>, id: nat, op: Operation) {
    exists j :: 0 <= j < |history| && history[j] == Invoked(id, op)
  }

  ghost predicate InvokedOk(history: seq<Event>, clients: map<nat, Request>, log: Log) {
    && (forall c :: c in clients ==> WasInvoked(history, clients[c].id, clients[c].op))
    && (forall p :: 0 <= p < |log| ==> WasInvoked(history, log[p].id, log[p].op))
  }

  ghost predicate MapPart(st: State) {
    NodesPart(st) && ContentsOk(st.table, st.nodes, st.clients, Replay(st.log)) && Legal(st.log)
  }

  ghost predicate LogPart(st: State) {
    && RequestsOk(st.clients, st.nodes, st.log, st.pos)
    && IdsOk(st.clients, st.next, st.log, st.pos)
    && HistoryOk(st.history, st.next, st.log, st.pos)
    && InvokedOk(st.history, st.clients, st.log)
  }

  ghost predicate Inv(st: State) { MapPart(st) && LogPart(st) }

  // ----- nodes and accessors, when the request of one client changes

  /** The stage of a request is one that client c may have here. */
  ghost predicate Fits(clients: map<nat, Request>, lingering: multiset<nat>, nodes: map<nat, Value>, c: nat,
      r: Request) {
    match r.stage
    case Writing(n, _) => n in nodes && n !in lingering && forall d :: d in clients && d != c ==> !Holds(clients[d], n)
    case Opened(n) => n in nodes && forall d :: d in clients && d != c ==> !Writes(clients[d], n)
    case HeaderWritten(n, _) => n in nodes && forall d :: d in clients && d != c ==> !Writes(clients[d], n)
    case Unlinked(n) => n in nodes && forall d :: d in clients && d != c ==> !Unlinks(clients[d], n)
    case _ => true
  }

  lemma HeldSet(clients: map<nat, Request>, lingering: multiset<nat>, nodes: map<nat, Value>, nodes': map<nat, Value>,
                c: nat, r: Request)
    requires HeldOk(clients, lingering, nodes) && nodes.Keys <= nodes'.Keys && Fits(clients, lingering, nodes', c, r)
    ensures HeldOk(clients[c := r], lingering, nodes')
  {
  }

  lemma LocksSet(clients: map<nat, Request>, lingering: multiset<nat>, nodes: map<nat, Value>, c: nat, r: Request)
    requires LocksOk(clients, lingering) && Fits(clients, lingering, nodes, c, r)
    ensures LocksOk(clients[c := r], lingering)
  {
  }

  lemma UnlinkedSet(clients: map<nat, Request>, table: map<Text, nat>, table': map<Text, nat>,
                    nodes: map<nat, Value>, nodes': map<nat, Value>, c: nat, r: Request)
    requires UnlinkedOk(clients, table, nodes) && nodes.Keys <= nodes'.Keys && Fits(clients, multiset{}, nodes', c, r)
    requires forall k :: k in table' ==> !Unlinks(r, table'[k])
    requires forall k :: k in table' ==> (k in table && table[k] == table'[k]) || table'[k] !in nodes
    ensures UnlinkedOk(clients[c := r], table', nodes')
  {
  }

  /** No node disappears, and a key that is linked anew gets a new node. */
  lemma NodesSet(st: State, st': State, c: nat, r: Request)
    requires NodesPart(st) && st'.clients == st.clients[c := r] && st'.lingering == st.lingering
    requires TableOk(st'.table, st'.nodes, st'.unused) && Fits(st.clients, st.lingering, st'.nodes, c, r)
    requires st.nodes.Keys <= st'.nodes.Keys
    requires forall k :: k in st'.table ==> !Unlinks(r, st'.table[k])
    requires forall k :: k in st'.table ==> (k in st.table && st.table[k] == st'.table[k]) || st'.table[k] !in st.nodes
    ensures NodesPart(st')
  {
    hide TableOk, HeldOk, LocksOk, UnlinkedOk, Unlinks;
    HeldSet(st.clients, st.lingering, st.nodes, st'.nodes, c, r) by { hide Fits; }
    LocksSet(st.clients, st.lingering, st'.nodes, c, r) by { hide Fits; }
    UnlinkedSet(st.clients, st.table, st'.table, st.nodes, st'.nodes, c, r);
  }

  lemma NodesDestroy(st: State, c: nat)
    requires NodesPart(st) && Enabled(st, Destroy(c))
    ensures NodesPart(Apply(st, Destroy(c)))
  {
    var n, st' := st.clients[c].stage.node, Apply(st, Destroy(c));
    assert Unlinks(st.clients[c], n);
    assert TableOk(st'.table, st'.nodes, st'.unused) by { hide HeldOk, LocksOk; }
    assert HeldOk(st'.clients, st'.lingering, st'.nodes) by { hide TableOk, LocksOk, UnlinkedOk; }
    assert LocksOk(st'.clients, st'.lingering) by { hide TableOk, HeldOk, UnlinkedOk; }
    assert UnlinkedOk(st'.clients, st'.table, st'.nodes) by { hide TableOk, HeldOk, LocksOk; }
    hide TableOk, HeldOk, LocksOk, UnlinkedOk, Apply, Enabled;
  }

  lemma NodesLinger(st: State, n: nat)
    requires NodesPart(st) && n in st.nodes && NoWriter(st.clients, n)
    ensures NodesPart(st.(lingering := st.lingering + multiset{n}))
  {
    hide TableOk, UnlinkedOk;
  }

  lemma NodesLess(st: State, st': State)
    requires NodesPart(st) && st'.table == st.table && st'.nodes == st.nodes && st'.unused == st.unused
    requires st'.lingering <= st.lingering
    requires forall c :: c in st'.clients ==> c in st.clients && st'.clients[c] == st.clients[c]
    ensures NodesPart(st')
  {
  }

  // ----- contents, when the request of one client changes

  /** A stage without a write accessor, before and after. */
  lemma ContentsStaged(table: map<Text, nat>, nodes: map<nat, Value>, clients: map<nat, Request>, s: Store, c: nat,
      r: Request)
    requires ContentsOk(table, nodes, clients, s)
    requires !r.stage.Writing? && (c in clients ==> !clients[c].stage.Writing?)
    ensures ContentsOk(table, nodes, clients[c := r], s)
  {
    var clients' := clients[c := r];
    forall n | NoWriter(clients', n) ensures NoWriter(clients, n) {
      forall d | d in clients ensures !Writes(clients[d], n) {
        assert d != c ==> clients'[d] == clients[d];
      }
    }
  }

  /** Without a writer before, c becomes the writer of the node of k. */
  lemma ContentsTaken(table: map<Text, nat>, nodes: map<nat, Value>, clients: map<nat, Request>, s: Store,
                      c: nat, r: Request, k: Text)
    requires ContentsOk(table, nodes, clients, s) && k in table && NoWriter(clients, table[k])
    requires forall l :: l in table && table[l] == table[k] ==> l == k
    requires c in clients && !clients[c].stage.Writing? && Writes(r, table[k]) && HasValue(r.op)
    ensures ContentsOk(table, nodes, clients[c := r], s[k := r.op.value])
  {
    var clients' := clients[c := r];
    forall l | l in table && NoWriter(clients', table[l]) ensures l != k && NoWriter(clients, table[l]) {
      assert !Writes(clients'[c], table[l]);
      forall d | d in clients ensures !Writes(clients[d], table[l]) {
        assert d != c ==> clients'[d] == clients[d];
      }
    }
  }

  /** A new key gets a new node with c as its writer. */
  lemma ContentsNew(table: map<Text, nat>, nodes: map<nat, Value>, clients: map<nat, Request>, s: Store,
                    c: nat, r: Request, k: Text, n: nat)
    requires ContentsOk(table, nodes, clients, s) && k !in table && n !in nodes && NoWriter(clients, n)
    requires forall l :: l in table ==> table[l] in nodes
    requires c in clients && !clients[c].stage.Writing? && Writes(r, n) && HasValue(r.op)
    ensures ContentsOk(table[k := n], nodes[n := []], clients[c := r], s[k := r.op.value])
  {
    var table', nodes' := table[k := n], nodes[n := []];
    assert ContentsOk(table', nodes', clients, s[k := []]);
    ContentsTaken(table', nodes', clients, s[k := []], c, r, k);
    assert s[k := []][k := r.op.value] == s[k := r.op.value];
  }

  /** The writer stores its value and lets go. */
  lemma ContentsStored(table: map<Text, nat>, nodes: map<nat, Value>, clients: map<nat, Request>, s: Store,
                       c: nat, r: Request, n: nat)
    requires ContentsOk(table, nodes, clients, s) && c in clients && Writes(clients[c], n) && !r.stage.Writing?
    requires HasValue(clients[c].op)
    requires forall d :: d in clients && d != c ==> !Writes(clients[d], n)
    ensures ContentsOk(table, nodes[n := clients[c].op.value], clients[c := r], s)
  {
    var clients' := clients[c := r];
    forall l | l in table && NoWriter(clients', table[l]) && table[l] != n ensures NoWriter(clients, table[l]) {
      forall d | d in clients ensures !Writes(clients[d], table[l]) {
        assert d != c ==> clients'[d] == clients[d];
      }
    }
  }

  lemma ContentsUnlinked(table: map<Text, nat>, nodes: map<nat, Value>, clients: map<nat, Request>, s: Store, k: Text)
    requires ContentsOk(table, nodes, clients, s)
    ensures ContentsOk(table - {k}, nodes, clients, s - {k})
  {
    hide NoWriter;
  }

  lemma ContentsDestroyed(table: map<Text, nat>, nodes: map<nat, Value>, clients: map<nat, Request>, s: Store, n: nat)
    requires ContentsOk(table, nodes, clients, s) && forall k :: k in table ==> table[k] != n
    ensures ContentsOk(table, nodes - {n}, clients, s)
  {
    hide NoWriter;
  }

  lemma ContentsLeft(table: map<Text, nat>, nodes: map<nat, Value>, clients: map<nat, Request>, s: Store, c: nat)
    requires ContentsOk(table, nodes, clients, s) && c in clients && !clients[c].stage.Writing?
    ensures ContentsOk(table, nodes, clients - {c}, s)
  {
    var clients' := clients - {c};
    forall n | NoWriter(clients', n) ensures NoWriter(clients, n) {
      forall d | d in clients ensures !Writes(clients[d], n) {
        assert d != c ==> clients'[d] == clients[d];
      }
    }
  }

  // ----- the map's part of the invariant, action by action

  /** What the proofs below use of the map's part. */
  lemma MapFacts(st: State)
    requires MapPart(st)
    ensures NodesPart(st) && ContentsOk(st.table, st.nodes, st.clients, Replay(st.log)) && Legal(st.log)
    ensures st.table.Keys == Replay(st.log).Keys && forall k :: k in st.table ==> st.table[k] in st.nodes
    ensures TableOk(st.table, st.nodes, st.unused) && LocksOk(st.clients, st.lingering)
    ensures HeldOk(st.clients, st.lingering, st.nodes)
    ensures forall k, l :: k in st.table && l in st.table && st.table[k] == st.table[l] ==> k == l
    ensures UnlinkedOk(st.clients, st.table, st.nodes)
  {
    hide LocksOk, HeldOk, UnlinkedOk, Replay, Legal;
  }

  lemma MapFrom(st: State)
    requires NodesPart(st) && ContentsOk(st.table, st.nodes, st.clients, Replay(st.log)) && Legal(st.log)
    ensures MapPart(st)
  {
    hide NodesPart, ContentsOk, Replay, Legal;
  }

  lemma InvokeMap(st: State, c: nat, op: Operation)
    requires MapPart(st) && Enabled(st, Invoke(c, op))
    ensures MapPart(Apply(st, Invoke(c, op)))
  {
    hide MapPart, NodesPart, ContentsOk, Replay, Legal, Key, TableOk, HeldOk, LocksOk, UnlinkedOk;
    MapFacts(st);
    var st', r := Apply(st, Invoke(c, op)), Request(st.next, op, Queued);
    NodesSet(st, st', c, r);
    ContentsStaged(st.table, st.nodes, st.clients, Replay(st.log), c, r);
    MapFrom(st');
  }

  /** A request goes on, or takes effect without changing the map. */
  lemma StagedMap(st: State, st': State, c: nat, stage: Stage)
    requires MapPart(st) && c in st.clients && !st.clients[c].stage.Writing? && !stage.Writing? && !stage.Unlinked?
    requires st'.clients == st.clients[c := st.clients[c].(stage := stage)] && st'.lingering == st.lingering
    requires (st'.table, st'.nodes, st'.unused) == (st.table, st.nodes, st.unused)
    requires Replay(st'.log) == Replay(st.log) && Legal(st'.log)
    requires Fits(st.clients, st.lingering, st.nodes, c, st.clients[c].(stage := stage))
    ensures MapPart(st')
  {
    hide MapPart, NodesPart, ContentsOk, Replay, Legal, Key, TableOk, HeldOk, LocksOk, UnlinkedOk, Fits;
    MapFacts(st);
    var r := st.clients[c].(stage := stage);
    NodesSet(st, st', c, r);
    ContentsStaged(st.table, st.nodes, st.clients, Replay(st.log), c, r);
    MapFrom(st');
  }

  /** Create and put find their node, take its write accessor and take effect. */
  lemma TakeMap(st: State, c: nat, reply: Answer)
    requires MapPart(st) && At(st, c, Queued) && HasValue(st.clients[c].op)
    requires KeyOf(st, c) in st.table && Free(st, st.table[KeyOf(st, c)])
    requires Do(Replay(st.log), st.clients[c].op) == (Replay(st.log)[KeyOf(st, c) := st.clients[c].op.value], reply)
    ensures MapPart(Effect(st, c, reply, Writing(st.table[KeyOf(st, c)], reply)))
  {
    hide MapPart, NodesPart, ContentsOk, Replay, Legal, Key, TableOk, HeldOk, LocksOk, UnlinkedOk, Do;
    MapFacts(st);
    var k, op := KeyOf(st, c), st.clients[c].op;
    var st' := Effect(st, c, reply, Writing(st.table[k], reply));
    LogMore(st.log, Entry(st.clients[c].id, op, reply));
    NodesSet(st, st', c, st'.clients[c]);
    ContentsTaken(st.table, st.nodes, st.clients, Replay(st.log), c, st'.clients[c], k);
    MapFrom(st');
  }

  lemma InsertMap(st: State, c: nat)
    requires MapPart(st) && Enabled(st, InsertKey(c)) && KeyOf(st, c) !in st.table
    ensures MapPart(Apply(st, InsertKey(c)))
  {
    hide MapPart, NodesPart, ContentsOk, Replay, Legal, Key, LocksOk, UnlinkedOk;
    MapFacts(st);
    var k, op, n := KeyOf(st, c), st.clients[c].op, st.unused;
    var st' := Apply(st, InsertKey(c));
    assert Do(Replay(st.log), op) == (Replay(st.log)[k := op.value], OK);
    hide Do;
    LogMore(st.log, Entry(st.clients[c].id, op, OK));
    assert forall d :: d in st.clients ==> !Holds(st.clients[d], n);
    hide HeldOk;
    assert TableOk(st'.table, st'.nodes, st'.unused);
    assert n !in st.lingering by { LingeringExist(st); }
    hide TableOk;
    NodesSet(st, st', c, st'.clients[c]);
    ContentsNew(st.table, st.nodes, st.clients, Replay(st.log), c, st'.clients[c], k, n);
    MapFrom(st');
  }

  lemma LingeringExist(st: State)
    requires HeldOk(st.clients, st.lingering, st.nodes) && TableOk(st.table, st.nodes, st.unused)
    ensures st.unused !in st.lingering && st.unused !in st.nodes
  {
  }

  lemma AssignMap(st: State, c: nat)
    requires MapPart(st) && Enabled(st, Assign(c))
    ensures MapPart(Apply(st, Assign(c)))
  {
    hide MapPart, NodesPart, ContentsOk, Replay, Legal, Key, UnlinkedOk;
    MapFacts(st);
    var n, st' := st.clients[c].stage.node, Apply(st, Assign(c));
    assert Writes(st.clients[c], n) && Holds(st.clients[c], n);
    assert n in st.nodes;
    assert TableOk(st'.table, st'.nodes, st'.unused);
    assert forall d :: d in st.clients && d != c ==> !Writes(st.clients[d], n);
    hide TableOk, HeldOk, LocksOk;
    NodesSet(st, st', c, st'.clients[c]);
    ContentsStored(st.table, st.nodes, st.clients, Replay(st.log), c, st'.clients[c], n);
    MapFrom(st');
  }

  /** The key is not there: the request fails. */
  lemma MissMap(st: State, c: nat)
    requires MapPart(st) && At(st, c, Queued) && !st.clients[c].op.Create? && KeyOf(st, c) !in st.table
    ensures MapPart(Effect(st, c, FAILED, Finished(FAILED)))
  {
    hide MapPart, NodesPart, ContentsOk, Replay, Legal, Key, TableOk, HeldOk, LocksOk, UnlinkedOk;
    MapFacts(st);
    assert Replay(st.log) - {KeyOf(st, c)} == Replay(st.log);
    LogMore(st.log, Entry(st.clients[c].id, st.clients[c].op, FAILED));
    StagedMap(st, Effect(st, c, FAILED, Finished(FAILED)), c, Finished(FAILED));
  }

  lemma LocateMap(st: State, c: nat)
    requires MapPart(st) && (Enabled(st, Locate(c)) || (Enabled(st, InsertKey(c)) && KeyOf(st, c) in st.table))
    ensures MapPart(Apply(st, if st.clients[c].op.Put? then Locate(c) else InsertKey(c)))
  {
    hide MapPart, Replay, Key, Free;
    MapFacts(st) by { hide TableOk, HeldOk, LocksOk, UnlinkedOk, ContentsOk; }
    if KeyOf(st, c) in st.table {
      TakeMap(st, c, if st.clients[c].op.Put? then OK else FAILED);
    } else {
      MissMap(st, c);
    }
  }

  lemma OpenMap(st: State, c: nat)
    requires MapPart(st) && Enabled(st, Open(c))
    ensures MapPart(Apply(st, Open(c)))
  {
    hide MapPart, NodesPart, Replay, Legal, Key, TableOk, HeldOk, LocksOk, UnlinkedOk;
    var k := KeyOf(st, c);
    if k in st.table {
      MapFacts(st);
      var reply := Reply(true, Some(st.nodes[st.table[k]]));
      LogMore(st.log, Entry(st.clients[c].id, st.clients[c].op, reply));
      StagedMap(st, Apply(st, Open(c)), c, Opened(st.table[k])) by { hide ContentsOk; }
    } else {
      MissMap(st, c);
    }
  }

  lemma UnlinkMap(st: State, c: nat)
    requires MapPart(st) && Enabled(st, Unlink(c))
    ensures MapPart(Apply(st, Unlink(c)))
  {
    hide MapPart, NodesPart, ContentsOk, Replay, Legal, Key, HeldOk, LocksOk;
    MapFacts(st);
    var k := KeyOf(st, c);
    if k in st.table {
      var n, st' := st.table[k], Apply(st, Unlink(c));
      LogMore(st.log, Entry(st.clients[c].id, st.clients[c].op, OK));
      assert TableOk(st'.table, st'.nodes, st'.unused);
      assert Fits(st.clients, st.lingering, st.nodes, c, st'.clients[c]);
      hide TableOk, UnlinkedOk, Fits;
      NodesSet(st, st', c, st'.clients[c]);
      ContentsStaged(st.table, st.nodes, st.clients, Replay(st.log), c, st'.clients[c]);
      ContentsUnlinked(st.table, st.nodes, st'.clients, Replay(st.log), k);
      MapFrom(st');
    } else {
      MissMap(st, c);
    }
  }

  lemma DestroyMap(st: State, c: nat)
    requires MapPart(st) && Enabled(st, Destroy(c))
    ensures MapPart(Apply(st, Destroy(c)))
  {
    hide MapPart, NodesPart, ContentsOk, Replay, Legal, Key, TableOk, HeldOk, LocksOk;
    MapFacts(st);
    var n, st' := st.clients[c].stage.node, Apply(st, Destroy(c));
    assert Unlinks(st.clients[c], n);
    NodesDestroy(st, c);
    ContentsStaged(st.table, st.nodes, st.clients, Replay(st.log), c, st'.clients[c]);
    ContentsDestroyed(st.table, st.nodes, st'.clients, Replay(st.log), n);
    MapFrom(st');
  }

  /** A reader announces the size, or writes the body; then its accessor lingers. */
  lemma ReadMap(st: State, a: Action)
    requires MapPart(st) && Enabled(st, a) && (a.WriteHeader? || a.WriteBody?)
    ensures MapPart(Apply(st, a))
  {
    hide MapPart, NodesPart, ContentsOk, Replay, Legal, Key, TableOk, HeldOk, UnlinkedOk;
    MapFacts(st);
    var c, n, st' := a.c, st.clients[a.c].stage.node, Apply(st, a);
    assert Reads(st.clients[c], n) && Holds(st.clients[c], n);
    var stage := st'.clients[c].stage;
    StagedMap(st, SetStage(st, c, stage), c, stage);
    if a.WriteBody? {
      MapFacts(SetStage(st, c, stage));
      NodesLinger(SetStage(st, c, stage), n);
      MapFrom(st');
    }
  }

  lemma LeaveMap(st: State, a: Action)
    requires MapPart(st) && Enabled(st, a) && (a.Release? || a.Respond?)
    ensures MapPart(Apply(st, a))
  {
    hide MapPart, NodesPart, ContentsOk, Replay, Legal, Key, TableOk, HeldOk, LocksOk, UnlinkedOk;
    MapFacts(st);
    NodesLess(st, Apply(st, a));
    if a.Respond? {
      ContentsLeft(st.table, st.nodes, st.clients, Replay(st.log), a.c);
    }
    MapFrom(Apply(st, a));
  }

  lemma MapStep(st: State, a: Action)
    requires MapPart(st) && Enabled(st, a)
    ensures MapPart(Apply(st, a))
  {
    hide MapPart, Apply, Free, NoWriter, Key;
    match a
    case Invoke(c, op) => InvokeMap(st, c, op);
    case InsertKey(c) => if KeyOf(st, c) in st.table { LocateMap(st, c); } else { InsertMap(st, c); }
    case Locate(c) => LocateMap(st, c);
    case Assign(c) => AssignMap(st, c);
    case Open(c) => OpenMap(st, c);
    case WriteHeader(_) => ReadMap(st, a);
    case WriteBody(_) => ReadMap(st, a);
    case Release(_) => LeaveMap(st, a);
    case Unlink(c) => UnlinkMap(st, c);
    case Destroy(c) => DestroyMap(st, c);
    case Respond(_) => LeaveMap(st, a);
  }

  // ----- the log's part of the invariant

  /** Readers other than c see no change in their nodes. */
  ghost predicate ReadersKeep(clients: map<nat, Request>, c: nat, nodes: map<nat, Value>, nodes': map<nat, Value>) {
    forall d, n :: d in clients && d != c && Reads(clients[d], n) && n in nodes ==> n in nodes' && nodes'[n] == nodes[n]
  }

  lemma RequestsSet(clients: map<nat, Request>, c: nat, r: Request, nodes: map<nat, Value>, nodes': map<nat, Value>,
                    log: Log, log': Log, pos: map<nat, nat>, pos': map<nat, nat>)
    requires RequestsOk(clients, nodes, log, pos) && log <= log' && (pos' == pos || pos' == pos[r.id := |log|])
    requires forall d :: d in clients && d != c ==> clients[d].id != r.id
    requires RequestOk(r, nodes', log', pos') && ReadersKeep(clients, c, nodes, nodes')
    ensures RequestsOk(clients[c := r], nodes', log', pos')
  {
    forall d | d in clients && d != c ensures RequestOk(clients[d], nodes', log', pos') {
      assert RequestOk(clients[d], nodes, log, pos);
      if clients[d].stage.Opened? || clients[d].stage.HeaderWritten? {
        assert Reads(clients[d], clients[d].stage.node);
      }
    }
  }

  /** A request takes effect: its entry is the last of the log. */
  lemma LoggedIds(clients: map<nat, Request>, next: nat, log: Log, pos: map<nat, nat>, c: nat, e: Entry<Value>)
    requires IdsOk(clients, next, log, pos) && c in clients && clients[c].id == e.id && e.id !in pos
    ensures IdsOk(clients, next, log + [e], pos[e.id := |log|])
  {
  }

  lemma LoggedHistory(history: seq<Event>, next: nat, log: Log, pos: map<nat, nat>, e: Entry<Value>)
    requires HistoryOk(history, next, log, pos) && e.id !in pos
    requires forall i :: i in pos ==> pos[i] < |log|
    ensures HistoryOk(history, next, log + [e], pos[e.id := |log|])
  {
  }

  lemma LoggedInvoked(history: seq<Event>, clients: map<nat, Request>, log: Log, c: nat, reply: Answer)
    requires InvokedOk(history, clients, log) && c in clients
    ensures InvokedOk(history, clients, log + [Entry(clients[c].id, clients[c].op, reply)])
  {
    hide WasInvoked;
  }

  lemma StagedIds(clients: map<nat, Request>, next: nat, log: Log, pos: map<nat, nat>, history: seq<Event>,
                  c: nat, r: Request)
    requires IdsOk(clients, next, log, pos) && InvokedOk(history, clients, log)
    requires c in clients && r.id == clients[c].id && r.op == clients[c].op
    ensures IdsOk(clients[c := r], next, log, pos) && InvokedOk(history, clients[c := r], log)
  {
    hide WasInvoked;
  }

  /** What the proofs below use of the log's part. */
  lemma LogFacts(st: State)
    requires LogPart(st)
    ensures RequestsOk(st.clients, st.nodes, st.log, st.pos) && IdsOk(st.clients, st.next, st.log, st.pos)
    ensures HistoryOk(st.history, st.next, st.log, st.pos) && InvokedOk(st.history, st.clients, st.log)
    ensures forall i :: i in st.pos ==> st.pos[i] < |st.log|
    ensures forall c, d :: c in st.clients && d in st.clients && c != d ==> st.clients[c].id != st.clients[d].id
    ensures forall c :: c in st.clients ==> RequestOk(st.clients[c], st.nodes, st.log, st.pos)
  {
    hide HistoryOk, InvokedOk, RequestOk;
  }

  lemma LogFrom(st: State)
    requires RequestsOk(st.clients, st.nodes, st.log, st.pos) && IdsOk(st.clients, st.next, st.log, st.pos)
    requires HistoryOk(st.history, st.next, st.log, st.pos) && InvokedOk(st.history, st.clients, st.log)
    ensures LogPart(st)
  {
    hide RequestsOk, IdsOk, HistoryOk, InvokedOk;
  }

  /** A request takes effect. */
  lemma EffectLog(st: State, st': State, c: nat, reply: Answer, stage: Stage)
    requires LogPart(st) && At(st, c, Queued) && ReadersKeep(st.clients, c, st.nodes, st'.nodes)
    requires
      var st1 := Effect(st, c, reply, stage);
      (st'.clients, st'.next, st'.log, st'.pos, st'.history) == (st1.clients, st1.next, st1.log, st1.pos, st1.history)
    requires
      match stage
      case Writing(_, mine) => HasValue(st.clients[c].op) && mine == reply
      case Opened(n) => n in st'.nodes && reply == Reply(true, Some(st'.nodes[n]))
      case Unlinked(_) => reply == OK
      case Finished(mine) => mine == reply
      case _ => false
    ensures LogPart(st')
  {
    hide LogPart, RequestsOk, IdsOk, HistoryOk, InvokedOk, ReadersKeep;
    LogFacts(st);
    var e, r := Entry(st.clients[c].id, st.clients[c].op, reply), st.clients[c].(stage := stage);
    assert e.id !in st.pos && RequestOk(r, st'.nodes, st.log + [e], st.pos[e.id := |st.log|]);
    hide RequestOk;
    RequestsSet(st.clients, c, r, st.nodes, st'.nodes, st.log, st'.log, st.pos, st'.pos);
    LoggedIds(st.clients, st.next, st.log, st.pos, c, e);
    LoggedHistory(st.history, st.next, st.log, st.pos, e);
    LoggedInvoked(st.history, st.clients, st.log, c, reply);
    StagedIds(st.clients, st.next, st'.log, st'.pos, st.history, c, r);
    LogFrom(st');
  }

  /** A request that took effect goes on. */
  lemma StageLog(st: State, st': State, c: nat, r: Request)
    requires LogPart(st) && c in st.clients && st'.clients == st.clients[c := r]
    requires r.id == st.clients[c].id && r.op == st.clients[c].op && ReadersKeep(st.clients, c, st.nodes, st'.nodes)
    requires (st'.next, st'.log, st'.pos, st'.history) == (st.next, st.log, st.pos, st.history)
    requires RequestOk(st.clients[c], st.nodes, st.log, st.pos) ==> RequestOk(r, st'.nodes, st.log, st.pos)
    ensures LogPart(st')
  {
    hide LogPart, RequestsOk, IdsOk, HistoryOk, InvokedOk, RequestOk, ReadersKeep;
    LogFacts(st);
    RequestsSet(st.clients, c, r, st.nodes, st'.nodes, st.log, st.log, st.pos, st.pos);
    StagedIds(st.clients, st.next, st.log, st.pos, st.history, c, r);
    LogFrom(st');
  }

  /** The history grows by an event. */
  lemma HistoryMore(history: seq<Event>, e: Event, clients: map<nat, Request>, log: Log)
    requires InvokedOk(history, clients, log)
    ensures InvokedOk(history + [e], clients, log)
    ensures e.Invoked? ==> WasInvoked(history + [e], e.id, e.op)
  {
    forall id, op | WasInvoked(history, id, op) ensures WasInvoked(history + [e], id, op) {
      var j :| 0 <= j < |history| && history[j] == Invoked(id, op);
      assert (history + [e])[j] == Invoked(id, op);
    }
    assert (history + [e])[|history|] == e;
    hide WasInvoked;
  }

  lemma NewClient(history: seq<Event>, clients: map<nat, Request>, c: nat, r: Request, next: nat, nodes: map<nat,
      Value>,
                  log: Log, pos: map<nat, nat>)
    requires c !in clients && r.id == next && r.stage.Queued?
    requires RequestsOk(clients, nodes, log, pos) && IdsOk(clients, next, log, pos) && InvokedOk(history, clients, log)
    requires WasInvoked(history, r.id, r.op)
    ensures next !in pos
    ensures RequestsOk(clients[c := r], nodes, log, pos) && IdsOk(clients[c := r], next + 1, log, pos)
    ensures InvokedOk(history, clients[c := r], log)
  {
    hide WasInvoked;
    assert RequestsOk(clients[c := r], nodes, log, pos) by { hide InvokedOk; }
    assert InvokedOk(history, clients[c := r], log) by { hide RequestsOk, IdsOk; }
    hide RequestsOk, InvokedOk;
  }

  lemma HistoryInvoked(history: seq<Event>, e: Event, next: nat, log: Log, pos: map<nat, nat>)
    requires HistoryOk(history, next, log, pos) && e.Invoked? && e.id == next && next !in pos
    ensures HistoryOk(history + [e], next + 1, log, pos)
  {
  }

  lemma HistoryResponded(history: seq<Event>, e: Event, next: nat, log: Log, pos: map<nat, nat>)
    requires HistoryOk(history, next, log, pos) && e.Responded? && e.id < next
    requires e.id in pos && pos[e.id] < |log| && log[pos[e.id]].reply == e.reply
    ensures HistoryOk(history + [e], next, log, pos)
  {
  }

  lemma InvokeLog(st: State, c: nat, op: Operation)
    requires LogPart(st) && Enabled(st, Invoke(c, op))
    ensures LogPart(Apply(st, Invoke(c, op)))
  {
    hide LogPart, WasInvoked, RequestsOk, HistoryOk, InvokedOk, IdsOk;
    LogFacts(st);
    var r, e := Request(st.next, op, Queued), Invoked(st.next, op);
    HistoryMore(st.history, e, st.clients, st.log);
    NewClient(st.history + [e], st.clients, c, r, st.next, st.nodes, st.log, st.pos);
    HistoryInvoked(st.history, e, st.next, st.log, st.pos);
    LogFrom(Apply(st, Invoke(c, op)));
  }

  lemma ClientLeaves(history: seq<Event>, clients: map<nat, Request>, c: nat, next: nat, nodes: map<nat, Value>,
                     log: Log, pos: map<nat, nat>)
    requires c in clients
    requires RequestsOk(clients, nodes, log, pos) && IdsOk(clients, next, log, pos) && InvokedOk(history, clients, log)
    ensures clients[c].id < next
    ensures RequestsOk(clients - {c}, nodes, log, pos) && IdsOk(clients - {c}, next, log, pos)
    ensures InvokedOk(history, clients - {c}, log)
  {
    hide WasInvoked, RequestOk;
  }

  lemma RespondLog(st: State, c: nat)
    requires LogPart(st) && Enabled(st, Respond(c))
    ensures LogPart(Apply(st, Respond(c)))
  {
    hide LogPart, WasInvoked, RequestsOk, HistoryOk, InvokedOk, IdsOk;
    LogFacts(st);
    var e := Responded(st.clients[c].id, st.clients[c].stage.reply);
    HistoryMore(st.history, e, st.clients, st.log);
    ClientLeaves(st.history + [e], st.clients, c, st.next, st.nodes, st.log, st.pos);
    HistoryResponded(st.history, e, st.next, st.log, st.pos);
    LogFrom(Apply(st, Respond(c)));
  }

  lemma TakeLog(st: State, a: Action)
    requires Inv(st) && Enabled(st, a) && (a.InsertKey? || a.Locate? || a.Open? || a.Unlink?)
    ensures LogPart(Apply(st, a))
  {
    hide LogPart, Replay, Legal, Key, LocksOk, UnlinkedOk, ContentsOk, HeldOk;
    var c, k, st' := a.c, KeyOf(st, a.c), Apply(st, a);
    var r := st'.clients[c];
    assert ReadersKeep(st.clients, c, st.nodes, st'.nodes);
    hide TableOk, Inv, ReadersKeep, Free, NoWriter;
    EffectLog(st, st', c, st'.log[|st.log|].reply, r.stage);
  }

  lemma AssignLog(st: State, c: nat)
    requires Inv(st) && Enabled(st, Assign(c))
    ensures LogPart(Apply(st, Assign(c)))
  {
    hide LogPart, Replay, Legal, Key, UnlinkedOk, ContentsOk, HeldOk, TableOk;
    var st' := Apply(st, Assign(c));
    assert Writes(st.clients[c], st.clients[c].stage.node);
    assert ReadersKeep(st.clients, c, st.nodes, st'.nodes);
    hide Inv, ReadersKeep;
    StageLog(st, st', c, st'.clients[c]);
  }

  lemma DestroyLog(st: State, c: nat)
    requires Inv(st) && Enabled(st, Destroy(c))
    ensures LogPart(Apply(st, Destroy(c)))
  {
    hide LogPart, MapPart;
    var st' := Apply(st, Destroy(c));
    assert ReadersKeep(st.clients, c, st.nodes, st'.nodes);
    hide Inv, ReadersKeep;
    StageLog(st, st', c, st'.clients[c]);
  }

  lemma ReadLog(st: State, a: Action)
    requires Inv(st) && Enabled(st, a) && (a.WriteHeader? || a.WriteBody?)
    ensures LogPart(Apply(st, a))
  {
    hide LogPart, MapPart;
    var st' := Apply(st, a);
    assert ReadersKeep(st.clients, a.c, st.nodes, st'.nodes);
    hide Inv, ReadersKeep;
    StageLog(st, st', a.c, st'.clients[a.c]);
  }

  lemma ReleaseLog(st: State, n: nat)
    requires LogPart(st) && Enabled(st, Release(n))
    ensures LogPart(Apply(st, Release(n)))
  {
    hide RequestsOk, HistoryOk, InvokedOk, IdsOk;
  }

  lemma LogStep(st: State, a: Action)
    requires Inv(st) && Enabled(st, a)
    ensures LogPart(Apply(st, a))
  {
    assert LogPart(st) by { hide LogPart, MapPart; }
    hide Inv, LogPart, Apply, Enabled;
    match a
    case Invoke(c, op) => InvokeLog(st, c, op);
    case InsertKey(_) => TakeLog(st, a);
    case Locate(_) => TakeLog(st, a);
    case Assign(c) => AssignLog(st, c);
    case Open(_) => TakeLog(st, a);
    case WriteHeader(_) => ReadLog(st, a);
    case WriteBody(_) => ReadLog(st, a);
    case Release(n) => ReleaseLog(st, n);
    case Unlink(_) => TakeLog(st, a);
    case Destroy(c) => DestroyLog(st, c);
    case Respond(c) => RespondLog(st, c);
  }

  lemma {:induction false} RunInv(acts: seq<Action>)
    requires Exec(acts).Some?
    ensures Inv(Exec(acts).value)
  {
    if acts == [] {
    } else {
      var before, last := acts[..|acts| - 1], acts[|acts| - 1];
      RunInv(before);
      hide MapPart, LogPart, Enabled, Apply;
      MapStep(Exec(before).value, last);
      LogStep(Exec(before).value, last);
    }
  }

  // ----- results

  /** The log is a linearization of the history: a legal run of the plain map, in which every request occurs once
      at most and as it was invoked, which gives every client the reply it got, and in which a request comes
      before any that was invoked after its reply. */
  ghost predicate Linearizes(log: Log, history: seq<Event>) {
    && Legal(log)
    && (forall p, q :: 0 <= p < q < |log| ==> log[p].id != log[q].id)
    && (forall p :: 0 <= p < |log| ==> Invoked(log[p].id, log[p].op) in history)
    && (forall j :: 0 <= j < |history| && history[j].Responded? ==>
          exists p :: 0 <= p < |log| && log[p].id == history[j].id && log[p].reply == history[j].reply)
    && (forall i, j, q ::
          (0 <= i < j < |history| && history[i].Responded? && history[j].Invoked?
           && 0 <= q < |log| && log[q].id == history[j].id)
          ==> exists p :: 0 <= p < q && log[p].id == history[i].id)
  }

  lemma Linearizable(acts: seq<Action>, st: State)
    requires Exec(acts) == Some(st)
    ensures InvokedOnce(st.history) && Linearizes(st.log, st.history)
  {
    hide Exec, MapPart, LogPart, IdsOk, HistoryOk, InvokedOk, Legal, RequestsOk;
    RunInv(acts);
    LogFacts(st);
    LegalPart(st);
    LogNamesInvocations(st.history, st.clients, st.log);
    LogOrder(st.history, st.clients, st.next, st.log, st.pos);
    LogReplies(st.history, st.clients, st.next, st.log, st.pos);
  }

  lemma LegalPart(st: State)
    requires MapPart(st)
    ensures Legal(st.log)
  {
    hide NodesPart, ContentsOk;
  }

  lemma LogNamesInvocations(history: seq<Event>, clients: map<nat, Request>, log: Log)
    requires InvokedOk(history, clients, log)
    ensures forall p :: 0 <= p < |log| ==> Invoked(log[p].id, log[p].op) in history
  {
  }

  lemma LogOrder(history: seq<Event>, clients: map<nat, Request>, next: nat, log: Log, pos: map<nat, nat>)
    requires IdsOk(clients, next, log, pos) && HistoryOk(history, next, log, pos)
    ensures forall p, q :: 0 <= p < q < |log| ==> log[p].id != log[q].id
    ensures InvokedOnce(history)
    ensures forall i, j, q ::
      (0 <= i < j < |history| && history[i].Responded? && history[j].Invoked?
       && 0 <= q < |log| && log[q].id == history[j].id)
      ==> exists p :: 0 <= p < q && log[p].id == history[i].id
  {
    forall i, j, q |
      (0 <= i < j < |history| && history[i].Responded? && history[j].Invoked?
       && 0 <= q < |log| && log[q].id == history[j].id)
      ensures exists p :: 0 <= p < q && log[p].id == history[i].id
    {
      var p := pos[history[i].id];
      assert log[p].id == history[i].id;
    }
  }

  lemma LogReplies(history: seq<Event>, clients: map<nat, Request>, next: nat, log: Log, pos: map<nat, nat>)
    requires IdsOk(clients, next, log, pos) && HistoryOk(history, next, log, pos)
    ensures forall j :: 0 <= j < |history| && history[j].Responded? ==>
      exists p :: 0 <= p < |log| && log[p].id == history[j].id && log[p].reply == history[j].reply
  {
    forall j | 0 <= j < |history| && history[j].Responded?
      ensures exists p :: 0 <= p < |log| && log[p].id == history[j].id && log[p].reply == history[j].reply
    {
      var p := pos[history[j].id];
      assert log[p].id == history[j].id;
    }
  }

  /** From its lookup until both writes are done, a get sees one version of its entry, also when a delete unlinks the
      entry and a create makes it anew meanwhile: the node exists, the size announced in the header is that of
      the body that is written next, and both are what the log says. */
  lemma GetSeesOneVersion(acts: seq<Action>, st: State, c: nat, n: nat)
    requires Exec(acts) == Some(st) && c in st.clients && Reads(st.clients[c], n)
    ensures n in st.nodes
    ensures Entry(st.clients[c].id, st.clients[c].op, Reply(true, Some(st.nodes[n]))) in st.log
    ensures st.clients[c].stage.HeaderWritten? ==>
      && st.clients[c].stage.size == |st.nodes[n]|
      && Apply(st, WriteBody(c)).clients[c].stage == Finished(Reply(true, Some(st.nodes[n])))
  {
    hide Exec, MapPart, LogPart, HistoryOk, InvokedOk, RequestsOk, Key, Replay;
    RunInv(acts);
    LogFacts(st);
    assert RequestOk(st.clients[c], st.nodes, st.log, st.pos);
    var e := st.log[st.pos[st.clients[c].id]];
    assert e.id == st.clients[c].id by { hide RequestOk; }
    hide IdsOk;
    assert e in st.log;
    if st.clients[c].stage.HeaderWritten? {
      BodyWritten(st, c);
    }
    hide Apply, Enabled;
  }

  lemma BodyWritten(st: State, c: nat)
    requires Enabled(st, WriteBody(c)) && st.clients[c].stage.size == |st.nodes[st.clients[c].stage.node]|
    ensures c in Apply(st, WriteBody(c)).clients
    ensures Apply(st, WriteBody(c)).clients[c].stage == Finished(Reply(true, Some(st.nodes[st.clients[c].stage.node])))
  {
  }

  /** While a get holds its accessor no action of any worker changes or destroys the node, and as long as a key is
      linked to it, a create or put of that key waits. A delete does not wait to unlink, only to destroy. */
  lemma NodeLockedWhileRead(acts: seq<Action>, st: State, c: nat, n: nat)
    requires Exec(acts) == Some(st) && c in st.clients && Reads(st.clients[c], n)
    ensures n in st.nodes
    ensures forall a :: Enabled(st, a) ==> n in Apply(st, a).nodes && Apply(st, a).nodes[n] == st.nodes[n]
    ensures forall d :: d in st.clients && KeyOf(st, d) in st.table && st.table[KeyOf(st, d)] == n ==>
      !Enabled(st, InsertKey(d)) && !Enabled(st, Locate(d))
    ensures forall d :: At(st, d, Queued) && st.clients[d].op.Delete? ==>
      Enabled(st, Unlink(d)) && KeyOf(st, d) !in Apply(st, Unlink(d)).table
    ensures forall d :: d in st.clients && Unlinks(st.clients[d], n) ==> !Enabled(st, Destroy(d))
  {
    hide Exec, MapPart, LogPart, Replay, Key;
    RunInv(acts);
    MapFacts(st) by { hide LogPart; }
    hide ContentsOk, UnlinkedOk, NodesPart, Inv, Legal;
    NodeExists(st, c, n);
    hide TableOk, HeldOk;
    forall a | Enabled(st, a) ensures n in Apply(st, a).nodes && Apply(st, a).nodes[n] == st.nodes[n] {
      NodeKept(st, c, n, a);
    }
    hide LocksOk;
  }

  lemma NodeExists(st: State, c: nat, n: nat)
    requires HeldOk(st.clients, st.lingering, st.nodes) && TableOk(st.table, st.nodes, st.unused)
    requires c in st.clients && Reads(st.clients[c], n)
    ensures n in st.nodes && n < st.unused
  {
    assert Holds(st.clients[c], n);
  }

  lemma NodeKept(st: State, c: nat, n: nat, a: Action)
    requires LocksOk(st.clients, st.lingering) && c in st.clients && Reads(st.clients[c], n) && Enabled(st, a)
    requires n in st.nodes && n < st.unused
    ensures n in Apply(st, a).nodes && Apply(st, a).nodes[n] == st.nodes[n]
  {
    hide Key;
    assert Holds(st.clients[c], n);
    if a.Assign? {
      assert Writes(st.clients[a.c], st.clients[a.c].stage.node);
    }
  }
}
