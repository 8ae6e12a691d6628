/** The joint invariant of the protocol. Every created session has exactly one location; each part of the
    system may mention a session only in the way its location allows. */
module Invariant {
  import opened Bytes
  import opened SessionRecord
  import opened MemorySize
  import opened Tables
  import opened RuntimeSessions
  import opened Protocol

  /** How far a session that is on a process's list has come on that process. */
  datatype Phase = Waiting | Asked | Hosted | Ending | Reported | Taken(j: nat)

  datatype Loc =
    | Claimed(i: nat)               // by client handler i
    | Listed(p: Text, phase: Phase) // in the list of process p
    | Swapped(g: Text)              // in SESSIONS_SWAPPED_<g>
    | Leaving(j: nat)               // by closure handler j, between removal and sadd

  type Map = map<Text, Loc>

  predicate At(loc: Map, s: Text, l: Loc) { s in loc && loc[s] == l }

  predicate On(loc: Map, s: Text, p: Text) { s in loc && loc[s].Listed? && loc[s].p == p }

  // ----- who may mention a session

  predicate Claims(c: Client) { c.Won? || HasJob(c) }

  predicate HasJob(c: Client) { c.Ready? || c.NoFree? || c.Reserved? }

  function ClaimOf(c: Client): (r: Text)
    requires Claims(c)
  {
    if c.Won? then c.session else c.job.session
  }

  predicate Holds(c: Closer) { c.Removed? || c.Unmarked? }

  ghost predicate ClientsOk(clients: map<nat, Client>, loc: Map) {
    && (forall i :: i in clients && Claims(clients[i]) ==> At(loc, ClaimOf(clients[i]), Claimed(i)))
    && (forall s :: s in loc && loc[s].Claimed? ==>
          loc[s].i in clients && Claims(clients[loc[s].i]) && ClaimOf(clients[loc[s].i]) == s)
  }

  ghost predicate ListsOk(procs: map<Text, ProcessInfo>, loc: Map) {
    && (forall p :: p in procs ==> NoDup(procs[p].sessions))
    && (forall p, s :: p in procs && s in procs[p].sessions ==> On(loc, s, p))
    && (forall s :: s in loc && loc[s].Listed? ==> loc[s].p in procs && s in procs[loc[s].p].sessions)
  }

  ghost predicate SwappedOk(swapped: set<(Text, Text)>, loc: Map) {
    && (forall g, s :: (g, s) in swapped ==> At(loc, s, Swapped(g)))
    && (forall s :: s in loc && loc[s].Swapped? ==> (loc[s].g, s) in swapped)
  }

  ghost predicate ClosersOk(closers: map<nat, Closer>, procs: map<Text, ProcessInfo>, loc: Map) {
    && (forall j :: j in closers && !closers[j].Finished? ==> closers[j].process in procs)
    && (forall j :: j in closers && closers[j].Received? ==>
          At(loc, closers[j].session, Listed(closers[j].process, Taken(j))))
    && (forall j :: j in closers && Holds(closers[j]) ==> At(loc, closers[j].session, Leaving(j)))
    && (forall s :: s in loc && loc[s].Leaving? ==>
          loc[s].j in closers && Holds(closers[loc[s].j]) && closers[loc[s].j].session == s)
  }

  /** One process: requests not read yet, entries of the runtime, deletion threads, closures on their way. */
  ghost predicate PendingOk(p: Text, sent: seq<Request>, taken: nat, loc: Map) {
    && taken <= |sent|
    && (forall k :: taken <= k < |sent| ==> At(loc, sent[k].session, Listed(p, Phase.Asked)))
    && (forall k, l :: taken <= k < l < |sent| ==> sent[k].session != sent[l].session)
  }

  ghost predicate ForksOk(p: Text, forks: seq<Fork>, loc: Map) {
    && (forall k :: 0 <= k < |forks| ==> At(loc, forks[k].session, Listed(p, Hosted)))
    && (forall k, l :: 0 <= k < l < |forks| ==> forks[k].session != forks[l].session)
  }

  ghost predicate ClosingOk(p: Text, closing: multiset<Closure>, loc: Map) {
    && (forall c :: c in closing ==> At(loc, c.session, Listed(p, Ending)) && closing[c] == 1)
    && (forall c, d :: c in closing && d in closing && c.session == d.session ==> c == d)
  }

  ghost predicate UpOk(p: Text, up: seq<UpMessage>, loc: Map) {
    && (forall k :: 0 <= k < |up| && up[k].Closed? ==> At(loc, up[k].closure.session, Listed(p, Reported)))
    && (forall k, l :: 0 <= k < l < |up| && up[k].Closed? && up[l].Closed? ==>
          up[k].closure.session != up[l].closure.session)
  }

  ghost predicate Allowed(m: UpMessage) { m.Status? ==> m.code == SUCCESS || m.code == UNKNOWN_FAILURE }

  ghost predicate LinkOk(p: Text, l: Link, sent: seq<Request>, loc: Map) {
    && PendingOk(p, sent, l.taken, loc)
    && ForksOk(p, l.forks, loc)
    && ClosingOk(p, l.closing, loc)
    && UpOk(p, l.up, loc)
    && l.maxSessions == MAX_SESSIONS_PER_PROCESS
    && (forall k :: 0 <= k < |l.up| ==> Allowed(l.up[k]))
    && (l.reply.Some? ==> l.reply.value.Status? && Allowed(l.reply.value))
  }

  ghost predicate LinksOk(links: map<Text, Link>, procs: map<Text, ProcessInfo>, loc: Map) {
    && links.Keys == procs.Keys
    && (forall p :: p in links ==> LinkOk(p, links[p], procs[p].sent, loc))
  }

  // ----- connection stages, allocation flags

  predicate NewFor(c: Client) { c.Reserved? && !c.existing }

  ghost predicate Connects(l: Link, p: ProcessInfo) {
    && (p.connected <==> l.stage == Attached || l.stage == Live)
    && (!p.connected ==> p.sent == [])
  }

  ghost predicate StagesOk(clients: map<nat, Client>, links: map<Text, Link>, procs: map<Text, ProcessInfo>)
    requires links.Keys == procs.Keys
  {
    && (forall p :: p in links ==> Connects(links[p], procs[p]))
    && (forall i :: i in clients && clients[i].Reserved? ==> clients[i].process in procs)
    && (forall i :: i in clients && NewFor(clients[i]) ==>
          links[clients[i].process].stage == Unborn)
    && (forall i, j ::
          (i in clients && j in clients && NewFor(clients[i]) && NewFor(clients[j])
           && clients[i].process == clients[j].process) ==> i == j)
  }

  /** Every listed session has an object; one not allocated yet waits, and only before identification. */
  ghost predicate FlagsOk(sessions: map<Text, SessionInfo>, links: map<Text, Link>, loc: Map) {
    forall s :: s in loc ==>
      match loc[s]
      case Listed(p, phase) =>
        s in sessions && p in links
        && (!sessions[s].isAllocated ==> phase == Waiting && links[p].stage != Live)
      case Claimed(_) => s in sessions ==> sessions[s].isAllocated
      case _ => s in sessions && sessions[s].isAllocated
  }

  /** A job is a swap-in exactly when the control plane has seen its session before. */
  ghost predicate JobsOk(clients: map<nat, Client>, sessions: map<Text, SessionInfo>) {
    && (forall i :: i in clients && clients[i].Won? ==> clients[i].session in sessions)
    && (forall i :: i in clients && HasJob(clients[i]) ==>
          (clients[i].job.swapIn <==> clients[i].job.session in sessions))
  }

  // ----- capacity

  function Reservations(clients: map<nat, Client>, p: Text): (r: set<nat>) {
    set i | i in clients && clients[i].Reserved? && clients[i].process == p
  }

  ghost predicate CapacityOk(clients: map<nat, Client>, procs: map<Text, ProcessInfo>) {
    forall p :: p in procs ==>
      && procs[p].maxSessions == MAX_SESSIONS_PER_PROCESS
      && procs[p].allocatedSessions == |procs[p].sessions| + |Reservations(clients, p)|
      && procs[p].allocatedSessions <= procs[p].maxSessions
  }

  // ----- configuration

  ghost predicate SizeOf(memory: int32, c: Config) { memory == c.memory || memory == Negate(c.memory) }

  ghost predicate JobConfig(j: Job, created: map<Text, Config>) {
    && j.session in created
    && j.config == (if j.swapIn then created[j.session].(memory := Negate(created[j.session].memory))
                    else created[j.session])
  }

  ghost predicate Matches(s: Text, maxFunctions: int32, memory: int32, created: map<Text, Config>) {
    s in created && maxFunctions == created[s].maxFunctions && SizeOf(memory, created[s])
  }

  ghost predicate ForkConfig(f: Fork, created: map<Text, Config>) {
    && Matches(f.session, f.maxFunctions, f.memory, created)
    && (f.pid > 0 ==> f.bytes == SegmentBytes(f.memory))
  }

  ghost predicate ClosureConfig(c: Closure, created: map<Text, Config>) {
    && c.session in created
    && (c.bytes == 0 || c.bytes == SegmentBytes(created[c.session].memory)
        || c.bytes == SegmentBytes(Negate(created[c.session].memory)))
  }

  ghost predicate LinkConfig(l: Link, created: map<Text, Config>) {
    && (forall k :: 0 <= k < |l.forks| ==> ForkConfig(l.forks[k], created))
    && (forall c :: c in l.closing ==> ClosureConfig(c, created))
    && (forall k :: 0 <= k < |l.up| && l.up[k].Closed? ==> ClosureConfig(l.up[k].closure, created))
  }

  ghost predicate CreatedOk(created: map<Text, Config>, records: map<Text, Text>, loc: Map) {
    && created.Keys == loc.Keys
    && (forall s :: s in created ==> s in records && records[s] == PrintRecord(created[s]))
  }

  ghost predicate JobsConfig(clients: map<nat, Client>, created: map<Text, Config>) {
    forall i :: i in clients && HasJob(clients[i]) ==> JobConfig(clients[i].job, created)
  }

  ghost predicate SessionsConfig(sessions: map<Text, SessionInfo>, created: map<Text, Config>) {
    forall s :: s in sessions ==> Matches(s, sessions[s].maxFunctions, sessions[s].memory, created)
  }

  ghost predicate SentConfig(sent: seq<Request>, created: map<Text, Config>) {
    forall k :: 0 <= k < |sent| ==> Matches(sent[k].session, sent[k].maxFunctions, sent[k].memory, created)
  }

  ghost predicate ProcsConfig(procs: map<Text, ProcessInfo>, created: map<Text, Config>) {
    forall p :: p in procs ==> SentConfig(procs[p].sent, created)
  }

  ghost predicate LinksConfig(links: map<Text, Link>, created: map<Text, Config>) {
    forall p :: p in links ==> LinkConfig(links[p], created)
  }

  /** Ids: all are UUIDs, and processes and sessions never share one. */
  ghost predicate IdsOk(h: History, procs: map<Text, ProcessInfo>, names: set<Text>) {
    && (forall id :: id in h.uuids ==> |id| == 16 && NulFree(id))
    && h.created.Keys + procs.Keys + names <= h.uuids
  }

  // ----- counting

  function Requests(sent: seq<Request>, s: Text): (r: nat) {
    if sent == [] then 0
    else Requests(sent[..|sent| - 1], s) + if sent[|sent| - 1].session == s then 1 else 0
  }

  /** s was put on p and p has not identified itself since. */
  function Awaiting(t: Tables, p: Text, s: Text): (r: nat) {
    if p in t.processes && s in t.processes[p].sessions && s in t.sessions && !t.sessions[s].isAllocated then 1 else 0
  }

  function SentTo(t: Tables, p: Text, s: Text): (r: nat) {
    if p in t.processes then Requests(t.processes[p].sent, s) else 0
  }

  ghost predicate RequestsOk(t: Tables, h: History) {
    forall p, s :: h.placements[(p, s)] == SentTo(t, p, s) + h.dropped[(p, s)] + Awaiting(t, p, s)
  }

  ghost predicate WinsOk(h: History, loc: Map) {
    forall s :: h.parkings[s] == h.wins[s] + if s in loc && loc[s].Swapped? then 1 else 0
  }

  function Output(t: Tables, s: Text): (r: seq<Invocation>) {
    if s in t.sessions then t.sessions[s].delivered + t.sessions[s].queue else []
  }

  ghost predicate InvocationsOk(t: Tables, h: History) {
    forall s :: Submitted(h, s) == Output(t, s)
  }

  // ----- all together

  ghost predicate Places(st: State, loc: Map) {
    && ClientsOk(st.clients, loc)
    && ListsOk(st.tables.processes, loc)
    && SwappedOk(st.swapped, loc)
    && ClosersOk(st.closers, st.tables.processes, loc)
    && LinksOk(st.links, st.tables.processes, loc)
  }

  ghost predicate Flags(st: State, loc: Map) {
    && st.links.Keys == st.tables.processes.Keys
    && StagesOk(st.clients, st.links, st.tables.processes)
    && FlagsOk(st.tables.sessions, st.links, loc)
    && JobsOk(st.clients, st.tables.sessions)
    && CapacityOk(st.clients, st.tables.processes)
  }

  ghost predicate Values(st: State, loc: Map) {
    && CreatedOk(st.history.created, st.records, loc)
    && JobsConfig(st.clients, st.history.created)
    && SessionsConfig(st.tables.sessions, st.history.created)
    && ProcsConfig(st.tables.processes, st.history.created)
    && LinksConfig(st.links, st.history.created)
    && IdsOk(st.history, st.tables.processes, st.names)
    && RequestsOk(st.tables, st.history)
    && WinsOk(st.history, loc)
    && InvocationsOk(st.tables, st.history)
  }

  ghost predicate Inv(st: State, loc: Map) { Places(st, loc) && Flags(st, loc) && Values(st, loc) }

  // ----- how an action moves sessions

  function Claiming(st: State, loc: Map, i: nat): (loc': Map)
    requires CanClaim(st, i)
  {
    var pc := st.clients[i];
    if (pc.global, pc.session) in st.swapped then loc[pc.session := Claimed(i)] else loc
  }

  function Placing(st: State, loc: Map, i: nat): (loc': Map)
    requires CanPlace(st, i)
  {
    var Reserved(job, p, existing) := st.clients[i];
    loc[job.session := Listed(p, if existing && st.tables.processes[p].connected then Phase.Asked else Waiting)]
  }

  function Identifying(st: State, loc: Map, p: Text): (loc': Map)
    requires CanIdentify(st, p)
  {
    map s | s in loc :: if s in st.tables.processes[p].sessions && s in st.tables.sessions
                           && !st.tables.sessions[s].isAllocated then Listed(p, Phase.Asked) else loc[s]
  }

  function Deleting(st: State, loc: Map, p: Text, pid: int32): (loc': Map)
    requires CanDelete(st, p, pid)
  {
    var k := FindPid(st.links[p].forks, pid);
    if k == |st.links[p].forks| then loc else loc[st.links[p].forks[k].session := Listed(p, Ending)]
  }

  function Taking(st: State, loc: Map, p: Text, j: nat): (loc': Map)
    requires CanTake(st, p, j)
  {
    if st.links[p].up[0].Closed? then loc[st.links[p].up[0].closure.session := Listed(p, Taken(j))] else loc
  }

  function NextLoc(st: State, loc: Map, a: Action): (loc': Map)
    requires Enabled(st, a)
  {
    match a
    case Create(i, s) => loc[s := Claimed(i)]
    case Claim(i) => Claiming(st, loc, i)
    case PlaceSession(i) => Placing(st, loc, i)
    case Identify(p) => Identifying(st, loc, p)
    case AllocateSession(p, o) => loc[st.tables.processes[p].sent[st.links[p].taken].session := Listed(p, Hosted)]
    case DeleteSession(p, pid, _) => Deleting(st, loc, p, pid)
    case ReportClosure(p, c) => loc[c.session := Listed(p, Reported)]
    case Take(p, j) => Taking(st, loc, p, j)
    case RemoveSession(j) => loc[st.closers[j].session := Leaving(j)]
    case Park(j) => loc[st.closers[j].session := Swapped(st.tables.processes[st.closers[j].process].globalId)]
    case _ => loc
  }

  lemma InitOk()
    ensures Inv(INIT, map[])
  {
  }
}
