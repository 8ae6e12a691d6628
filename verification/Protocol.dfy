/** The session protocol as a transition system: the handlers on the control plane's thread pool, its
    tables, the Redis sets and records, the message channels, and the runtime processes.

    One action is one Redis call, one critical section of _sessions_mutex, one unlocked table access,
    one message read or written, or one critical section of a runtime process. Any number of handlers
    is under way at once. Each action carries the choices that the code, the operating system or the
    network make, so that a run is determined by its list of actions. */
module Protocol {
  import opened Bytes
  import opened SessionRecord
  import opened MemorySize
  import opened Tables
  import opened RuntimeSessions

  /** What a client handler carries once it knows its session. */
  datatype Job = Job(global: Text, session: Text, config: Config, swapIn: bool, inv: Option<Invocation>)

  /** Where a process_client handler is. */
  datatype Client =
    | Creating(global: Text, config: Config, inv: Option<Invocation>)
    | Asked(global: Text, session: Text, inv: Option<Invocation>)
    | NotAlive(global: Text, session: Text, inv: Option<Invocation>)
    | Won(global: Text, session: Text, inv: Option<Invocation>)
    | Ready(job: Job)
    | NoFree(job: Job)
    | Reserved(job: Job, process: Text, existing: bool)
    | Placed(global: Text, session: Text)
    | Replied(code: int)

  /** Where a handle_session_closure handler is. */
  datatype Closer =
    | Received(process: Text, session: Text)
    | Removed(process: Text, session: Text)
    | Unmarked(process: Text, session: Text)
    | Parked(process: Text, session: Text)
    | Finished

  /** How far the connection of a process is: not asked for yet, started by the backend, its
      identification sent, its connection stored, its pending sessions requested. */
  datatype Stage = Unborn | Spawned | Announced | Attached | Live

  datatype UpMessage = Status(session: Text, code: int16) | Closed(closure: Closure)

  /** A runtime process and its connection. `taken` requests of those sent to it were read;
      `reply` is the status it is about to write; `closing` are the deletion threads past the lock. */
  datatype Link = Link(
    stage: Stage, taken: nat, maxSessions: int16, forks: seq<Fork>, reply: Option<UpMessage>,
    closing: multiset<Closure>, up: seq<UpMessage>)

  /** Auxiliary: what happened so far. `dropped` counts the placements of a session on a process for
      which no request will ever be written. */
  datatype History = History(
    uuids: set<Text>, created: map<Text, Config>, submitted: map<Text, seq<Invocation>>,
    wins: multiset<Text>, parkings: multiset<Text>,
    placements: multiset<(Text, Text)>, dropped: multiset<(Text, Text)>)

  datatype State = State(
    names: set<Text>,              // keys PROCESS_<global>
    alive: set<(Text, Text)>,      // (key, session) in SESSIONS_ALIVE_<key>
    swapped: set<(Text, Text)>,    // (key, session) in SESSIONS_SWAPPED_<key>
    records: map<Text, Text>,      // SESSION_<id>
    tables: Tables,
    links: map<Text, Link>,
    clients: map<nat, Client>,
    closers: map<nat, Closer>,
    history: History)

  const INIT := State({}, {}, {}, map[], Tables(map[], map[]), map[], map[], map[],
                      History({}, map[], map[], multiset{}, multiset{}, multiset{}, multiset{}))

  datatype Action =
    | AddGlobal(g: Text)
    // process_client, handler i
    | Begin(i: nat, g: Text, s: Text, c: Config, inv: Option<Invocation>)
    | Create(i: nat, s: Text)
    | CheckAlive(i: nat)
    | Claim(i: nat)
    | ReadRecord(i: nat)
    | ReserveFree(i: nat, p: Text)
    | FindNoFree(i: nat)
    | AddProcess(i: nat, p: Text)
    | PlaceSession(i: nat)
    | MarkAlive(i: nat)
    // process_process and process_session
    | AttachProcess(p: Text)
    | Identify(p: Text)
    | DrainSession(s: Text)
    // handle_message and handle_session_closure, handler j
    | Take(p: Text, j: nat)
    | RemoveSession(j: nat)
    | Unmark(j: nat)
    | Park(j: nat)
    | EraseAlive(j: nat)
    // runtime process p
    | Announce(p: Text)
    | AllocateSession(p: Text, o: Outcome)
    | Reply(p: Text)
    | DeleteSession(p: Text, pid: int32, swapping: bool)
    | ReportClosure(p: Text, closure: Closure)

  /** 16 characters of a UUID: never a NUL or a separator, never seen before. */
  predicate FreshUuid(st: State, id: Text) {
    |id| == 16 && NulFree(id) && id !in st.history.uuids
  }

  /** The invocations that placements of s came with, in the order of their critical sections. */
  function Submitted(h: History, s: Text): (r: seq<Invocation>) {
    if s in h.submitted then h.submitted[s] else []
  }

  function SetClient(st: State, i: nat, c: Client): (st': State) { st.(clients := st.clients[i := c]) }

  function SetCloser(st: State, j: nat, c: Closer): (st': State) { st.(closers := st.closers[j := c]) }

  function SetLink(st: State, p: Text, l: Link): (st': State) { st.(links := st.links[p := l]) }

  // ----- process_allocation

  function DoAddGlobal(st: State, g: Text): (st': State) {
    st.(names := st.names + {g}, history := st.history.(uuids := st.history.uuids + {g}))
  }

  // ----- process_client

  function DoBegin(st: State, i: nat, g: Text, s: Text, c: Config, inv: Option<Invocation>): (st': State) {
    SetClient(st, i, if g !in st.names then Replied(400)
                     else if s == [] then Creating(g, c, inv) else Asked(g, s, inv))
  }

  predicate CanCreate(st: State, i: nat, s: Text) {
    i in st.clients && st.clients[i].Creating? && FreshUuid(st, s)
  }

  function DoCreate(st: State, i: nat, s: Text): (st': State)
    requires CanCreate(st, i, s)
  {
    var pc := st.clients[i];
    SetClient(st, i, Ready(Job(pc.global, s, pc.config, false, pc.inv))).(
      records := st.records[s := PrintRecord(pc.config)],
      history := st.history.(uuids := st.history.uuids + {s}, created := st.history.created[s := pc.config]))
  }

  predicate CanCheckAlive(st: State, i: nat) { i in st.clients && st.clients[i].Asked? }

  function DoCheckAlive(st: State, i: nat): (st': State)
    requires CanCheckAlive(st, i)
  {
    var pc := st.clients[i];
    SetClient(st, i, if (pc.global, pc.session) in st.alive then Replied(400)
                     else NotAlive(pc.global, pc.session, pc.inv))
  }

  predicate CanClaim(st: State, i: nat) { i in st.clients && st.clients[i].NotAlive? }

  function DoClaim(st: State, i: nat): (st': State)
    requires CanClaim(st, i)
  {
    var pc := st.clients[i];
    if (pc.global, pc.session) in st.swapped then
      SetClient(st, i, Won(pc.global, pc.session, pc.inv)).(
        swapped := st.swapped - {(pc.global, pc.session)},
        history := st.history.(wins := st.history.wins + multiset{pc.session}))
    else SetClient(st, i, Replied(400))
  }

  predicate CanReadRecord(st: State, i: nat) { i in st.clients && st.clients[i].Won? }

  /** The record overwrites what the caller passed for a session it names (ControlPlane.TargetsIgnored). */
  function DoReadRecord(st: State, i: nat): (st': State)
    requires CanReadRecord(st, i)
  {
    var pc := st.clients[i];
    if pc.session in st.records then
      var c := ParseRecord(st.records[pc.session], Config(0, 0));
      SetClient(st, i, Ready(Job(pc.global, pc.session, c.(memory := Negate(c.memory)), true, pc.inv)))
    else SetClient(st, i, Replied(400))
  }

  /** get_free_process: any process with room, whatever its global id. */
  predicate CanReserveFree(st: State, i: nat, p: Text) {
    && i in st.clients && st.clients[i].Ready?
    && p in st.tables.processes && HasRoom(st.tables.processes[p])
  }

  function DoReserveFree(st: State, i: nat, p: Text): (st': State)
    requires CanReserveFree(st, i, p)
  {
    SetClient(st, i, Reserved(st.clients[i].job, p, true)).(tables := Reserve(st.tables, p))
  }

  predicate CanFindNoFree(st: State, i: nat) {
    && i in st.clients && st.clients[i].Ready?
    && forall p :: p in st.tables.processes ==> !HasRoom(st.tables.processes[p])
  }

  function DoFindNoFree(st: State, i: nat): (st': State)
    requires CanFindNoFree(st, i)
  {
    SetClient(st, i, NoFree(st.clients[i].job))
  }

  predicate CanAddProcess(st: State, i: nat, p: Text) {
    i in st.clients && st.clients[i].NoFree? && FreshUuid(st, p)
  }

  /** The new entry is visible to get_free_process, which takes no lock, before its session is added. */
  function DoAddProcess(st: State, i: nat, p: Text): (st': State)
    requires CanAddProcess(st, i, p)
  {
    var job := st.clients[i].job;
    SetClient(st, i, Reserved(job, p, false)).(
      tables := st.tables.(processes := st.tables.processes[p := NewProcess(job.global)]),
      links := st.links[p := Link(Unborn, 0, MAX_SESSIONS_PER_PROCESS, [], None, multiset{}, [])],
      history := st.history.(uuids := st.history.uuids + {p}))
  }

  predicate CanPlace(st: State, i: nat) {
    && i in st.clients && st.clients[i].Reserved?
    && st.clients[i].process in st.tables.processes && st.clients[i].process in st.links
  }

  /** No request will ever be written: the connection is not there yet, or the process is new and the
      Session object is an old one that still says it was allocated. */
  predicate Drops(t: Tables, p: Text, s: Text, existing: bool)
    requires p in t.processes
  {
    if existing then !t.processes[p].connected else s in t.sessions && t.sessions[s].isAllocated
  }

  function DoPlace(st: State, i: nat): (st': State)
    requires CanPlace(st, i)
  {
    var Reserved(job, p, existing) := st.clients[i];
    var s := job.session;
    SetClient(st, i, Placed(job.global, s)).(
      tables := Place(st.tables, p, s, job.config, job.swapIn, job.inv, existing),
      links := if existing then st.links else st.links[p := st.links[p].(stage := Spawned)],
      history := st.history.(
        submitted := st.history.submitted[s := Submitted(st.history, s) + OptionSeq(job.inv)],
        placements := st.history.placements + multiset{(p, s)},
        dropped := if Drops(st.tables, p, s, existing) then st.history.dropped + multiset{(p, s)}
                   else st.history.dropped))
  }

  predicate CanMarkAlive(st: State, i: nat) { i in st.clients && st.clients[i].Placed? }

  function DoMarkAlive(st: State, i: nat): (st': State)
    requires CanMarkAlive(st, i)
  {
    SetClient(st, i, Replied(200)).(alive := st.alive + {(st.clients[i].global, st.clients[i].session)})
  }

  // ----- process_process and process_session

  predicate CanAttach(st: State, p: Text) {
    p in st.tables.processes && p in st.links && st.links[p].stage == Announced
  }

  function DoAttach(st: State, p: Text): (st': State)
    requires CanAttach(st, p)
  {
    SetLink(st, p, st.links[p].(stage := Attached)).(tables := Attach(st.tables, p))
  }

  predicate CanIdentify(st: State, p: Text) {
    p in st.tables.processes && p in st.links && st.links[p].stage == Attached
  }

  function DoIdentify(st: State, p: Text): (st': State)
    requires CanIdentify(st, p)
  {
    SetLink(st, p, st.links[p].(stage := Live)).(
      tables := RequestAll(st.tables, p, st.tables.processes[p].sessions))
  }

  function DoDrain(st: State, s: Text): (st': State) { st.(tables := Drain(st.tables, s)) }

  // ----- handle_message and handle_session_closure

  predicate CanTake(st: State, p: Text, j: nat) {
    p in st.links && st.links[p].stage == Live && st.links[p].up != [] && j !in st.closers
  }

  function DoTake(st: State, p: Text, j: nat): (st': State)
    requires CanTake(st, p, j)
  {
    var l := st.links[p];
    var st' := SetLink(st, p, l.(up := l.up[1..]));
    if l.up[0].Closed? then SetCloser(st', j, Received(p, l.up[0].closure.session)) else st'
  }

  predicate CanRemove(st: State, j: nat) {
    j in st.closers && st.closers[j].Received? && st.closers[j].process in st.tables.processes
  }

  function DoRemove(st: State, j: nat): (st': State)
    requires CanRemove(st, j)
  {
    var Received(p, s) := st.closers[j];
    SetCloser(st, j, Removed(p, s)).(tables := Remove(st.tables, p, s))
  }

  predicate CanUnmark(st: State, j: nat) { j in st.closers && st.closers[j].Removed? }

  function DoUnmark(st: State, j: nat): (st': State)
    requires CanUnmark(st, j)
  {
    var Removed(p, s) := st.closers[j];
    SetCloser(st, j, Unmarked(p, s)).(alive := st.alive - {(p, s)})
  }

  predicate CanPark(st: State, j: nat) {
    j in st.closers && st.closers[j].Unmarked? && st.closers[j].process in st.tables.processes
  }

  function DoPark(st: State, j: nat): (st': State)
    requires CanPark(st, j)
  {
    var Unmarked(p, s) := st.closers[j];
    SetCloser(st, j, Parked(p, s)).(
      swapped := st.swapped + {(st.tables.processes[p].globalId, s)},
      history := st.history.(parkings := st.history.parkings + multiset{s}))
  }

  predicate CanErase(st: State, j: nat) {
    j in st.closers && st.closers[j].Parked? && st.closers[j].process in st.tables.processes
  }

  function DoErase(st: State, j: nat): (st': State)
    requires CanErase(st, j)
  {
    var Parked(p, s) := st.closers[j];
    SetCloser(st, j, Finished).(alive := st.alive - {(st.tables.processes[p].globalId, s)})
  }

  // ----- runtime process

  predicate CanAnnounce(st: State, p: Text) { p in st.links && st.links[p].stage == Spawned }

  function DoAnnounce(st: State, p: Text): (st': State)
    requires CanAnnounce(st, p)
  {
    SetLink(st, p, st.links[p].(stage := Announced))
  }

  /** The next request is read only after the previous status was written. A child's pid is positive and
      differs from those of the children that were not waited for. */
  predicate CanAllocate(st: State, p: Text, o: Outcome) {
    && p in st.links && p in st.tables.processes
    && st.links[p].reply.None? && st.links[p].taken < |st.tables.processes[p].sent|
    && (o.Child? ==> o.pid > 0 && FindPid(st.links[p].forks, o.pid) == |st.links[p].forks|)
  }

  function DoAllocate(st: State, p: Text, o: Outcome): (st': State)
    requires CanAllocate(st, p, o)
  {
    var l := st.links[p];
    var r := st.tables.processes[p].sent[l.taken];
    var (forks, code) := Allocate(l.forks, l.maxSessions, r, o);
    SetLink(st, p, l.(taken := l.taken + 1, forks := forks, reply := Some(Status(r.session, code))))
  }

  predicate CanReply(st: State, p: Text) { p in st.links && st.links[p].reply.Some? }

  function DoReply(st: State, p: Text): (st': State)
    requires CanReply(st, p)
  {
    var l := st.links[p];
    SetLink(st, p, l.(reply := None, up := l.up + [l.reply.value]))
  }

  /** A child with this pid ended. A pid that is not in the list changes nothing. */
  predicate CanDelete(st: State, p: Text, pid: int32) { p in st.links && pid > 0 }

  function DoDelete(st: State, p: Text, pid: int32, swapping: bool): (st': State)
    requires CanDelete(st, p, pid)
  {
    var l := st.links[p];
    var k := FindPid(l.forks, pid);
    if k == |l.forks| then st
    else SetLink(st, p, l.(forks := RemoveAt(l.forks, k),
                           closing := l.closing + multiset{Closing(l.forks[k], swapping)}))
  }

  predicate CanReport(st: State, p: Text, c: Closure) { p in st.links && c in st.links[p].closing }

  function DoReport(st: State, p: Text, c: Closure): (st': State)
    requires CanReport(st, p, c)
  {
    var l := st.links[p];
    SetLink(st, p, l.(closing := l.closing - multiset{c}, up := l.up + [Closed(c)]))
  }

  // ----- runs

  predicate Enabled(st: State, a: Action) {
    match a
    case AddGlobal(g) => FreshUuid(st, g)
    case Begin(i, g, s, c, inv) => i !in st.clients
    case Create(i, s) => CanCreate(st, i, s)
    case CheckAlive(i) => CanCheckAlive(st, i)
    case Claim(i) => CanClaim(st, i)
    case ReadRecord(i) => CanReadRecord(st, i)
    case ReserveFree(i, p) => CanReserveFree(st, i, p)
    case FindNoFree(i) => CanFindNoFree(st, i)
    case AddProcess(i, p) => CanAddProcess(st, i, p)
    case PlaceSession(i) => CanPlace(st, i)
    case MarkAlive(i) => CanMarkAlive(st, i)
    case AttachProcess(p) => CanAttach(st, p)
    case Identify(p) => CanIdentify(st, p)
    case DrainSession(s) => true
    case Take(p, j) => CanTake(st, p, j)
    case RemoveSession(j) => CanRemove(st, j)
    case Unmark(j) => CanUnmark(st, j)
    case Park(j) => CanPark(st, j)
    case EraseAlive(j) => CanErase(st, j)
    case Announce(p) => CanAnnounce(st, p)
    case AllocateSession(p, o) => CanAllocate(st, p, o)
    case Reply(p) => CanReply(st, p)
    case DeleteSession(p, pid, swapping) => CanDelete(st, p, pid)
    case ReportClosure(p, c) => CanReport(st, p, c)
  }

  function Apply(st: State, a: Action): (st': State)
    requires Enabled(st, a)
  {
    hide FreshUuid, DoCreate, DoPlace, DoAddProcess, DoAllocate, DoDelete, DoTake, DoIdentify, DoReport;
    match a
    case AddGlobal(g) => DoAddGlobal(st, g)
    case Begin(i, g, s, c, inv) => DoBegin(st, i, g, s, c, inv)
    case Create(i, s) => DoCreate(st, i, s)
    case CheckAlive(i) => DoCheckAlive(st, i)
    case Claim(i) => DoClaim(st, i)
    case ReadRecord(i) => DoReadRecord(st, i)
    case ReserveFree(i, p) => DoReserveFree(st, i, p)
    case FindNoFree(i) => DoFindNoFree(st, i)
    case AddProcess(i, p) => DoAddProcess(st, i, p)
    case PlaceSession(i) => DoPlace(st, i)
    case MarkAlive(i) => DoMarkAlive(st, i)
    case AttachProcess(p) => DoAttach(st, p)
    case Identify(p) => DoIdentify(st, p)
    case DrainSession(s) => DoDrain(st, s)
    case Take(p, j) => DoTake(st, p, j)
    case RemoveSession(j) => DoRemove(st, j)
    case Unmark(j) => DoUnmark(st, j)
    case Park(j) => DoPark(st, j)
    case EraseAlive(j) => DoErase(st, j)
    case Announce(p) => DoAnnounce(st, p)
    case AllocateSession(p, o) => DoAllocate(st, p, o)
    case Reply(p) => DoReply(st, p)
    case DeleteSession(p, pid, swapping) => DoDelete(st, p, pid, swapping)
    case ReportClosure(p, c) => DoReport(st, p, c)
  }

  /** The state a list of actions leads to, if each of them was possible. */
  function Exec(acts: seq<Action>): (r: Option<State>) {
    if acts == [] then Some(INIT)
    else
      match Exec(acts[..|acts| - 1])
      case None => None
      case Some(st) => if Enabled(st, acts[|acts| - 1]) then Some(Apply(st, acts[|acts| - 1])) else None
  }
}
