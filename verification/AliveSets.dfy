/** The SESSIONS_ALIVE_ and SESSIONS_SWAPPED_ sets: exactly when they are right. Handlers of different sessions may
    overlap as they like; handlers of one session must not. Then the entries of a session are exact as long as it
    was never closed on a process of another global id than the one its job asked for, and never again after
    that. Overlaps.dfy has runs that show neither condition to be idle. */
module AliveSets {
  import opened Bytes
  import opened SessionRecord
  import opened MemorySize
  import opened Tables
  import opened RuntimeSessions
  import opened Protocol
  import I = Invariant
  import Runs
  import Moves
  import Theorems

  // ----- which handler an action belongs to

  predicate OfClient(a: Action, i: nat) {
    match a
    case Begin(j, _, _, _, _) => i == j
    case Create(j, _) => i == j
    case CheckAlive(j) => i == j
    case Claim(j) => i == j
    case ReadRecord(j) => i == j
    case ReserveFree(j, _) => i == j
    case FindNoFree(j) => i == j
    case AddProcess(j, _) => i == j
    case PlaceSession(j) => i == j
    case MarkAlive(j) => i == j
    case _ => false
  }

  predicate OfCloser(a: Action, j: nat) {
    match a
    case Take(_, k) => j == k
    case RemoveSession(k) => j == k
    case Unmark(k) => j == k
    case Park(k) => j == k
    case EraseAlive(k) => j == k
    case _ => false
  }

  predicate IsClient(a: Action) {
    a.Begin? || a.Create? || a.CheckAlive? || a.Claim? || a.ReadRecord? || a.ReserveFree? || a.FindNoFree?
    || a.AddProcess? || a.PlaceSession? || a.MarkAlive?
  }

  predicate IsCloser(a: Action) { a.Take? || a.RemoveSession? || a.Unmark? || a.Park? || a.EraseAlive? }

  // ----- the handlers of one session

  function SessionOf(c: Client): (s: Option<Text>) {
    match c
    case Creating(_, _, _) => None
    case Asked(_, s, _) => Some(s)
    case NotAlive(_, s, _) => Some(s)
    case Won(_, s, _) => Some(s)
    case Ready(job) => Some(job.session)
    case NoFree(job) => Some(job.session)
    case Reserved(job, _, _) => Some(job.session)
    case Placed(_, s) => Some(s)
    case Replied(_) => None
  }

  function GlobalOf(c: Client): (g: Option<Text>) {
    match c
    case Ready(job) => Some(job.global)
    case NoFree(job) => Some(job.global)
    case Reserved(job, _, _) => Some(job.global)
    case Replied(_) => None
    case _ => Some(c.global)
  }

  predicate Works(st: State, i: nat, s: Text) { i in st.clients && SessionOf(st.clients[i]) == Some(s) }

  predicate Closes(st: State, j: nat, s: Text) {
    j in st.closers && !st.closers[j].Finished? && st.closers[j].session == s
  }

  /** No handler of s is under way. */
  ghost predicate Quiet(st: State, s: Text) {
    (forall i :: !Works(st, i, s)) && (forall j :: !Closes(st, j, s))
  }

  /** The action is one of a handler of s, or starts one. */
  predicate Concerns(st: State, a: Action, s: Text)
    requires Enabled(st, a)
  {
    match a
    case Begin(_, _, t, _, _) => t == s
    case Create(_, t) => t == s
    case Take(p, _) => st.links[p].up[0].Closed? && st.links[p].up[0].closure.session == s
    case CheckAlive(i) => Works(st, i, s)
    case Claim(i) => Works(st, i, s)
    case ReadRecord(i) => Works(st, i, s)
    case ReserveFree(i, _) => Works(st, i, s)
    case FindNoFree(i) => Works(st, i, s)
    case AddProcess(i, _) => Works(st, i, s)
    case PlaceSession(i) => Works(st, i, s)
    case MarkAlive(i) => Works(st, i, s)
    case RemoveSession(j) => Closes(st, j, s)
    case Unmark(j) => Closes(st, j, s)
    case Park(j) => Closes(st, j, s)
    case EraseAlive(j) => Closes(st, j, s)
    case _ => false
  }

  /** A handler of s acts only when no other handler of s is under way. */
  ghost predicate Apart(st: State, a: Action, s: Text)
    requires Enabled(st, a)
  {
    Concerns(st, a, s) ==>
      && (forall i :: Works(st, i, s) ==> OfClient(a, i))
      && (forall j :: Closes(st, j, s) ==> OfCloser(a, j))
  }

  /** A run in which handlers of s do not overlap. */
  ghost predicate ApartRun(acts: seq<Action>, s: Text) {
    Exec(acts).Some? &&
    (acts != [] ==>
      ApartRun(acts[..|acts| - 1], s) && Apart(Exec(acts[..|acts| - 1]).value, acts[|acts| - 1], s))
  }

  // ----- where a session was meant to be

  /** The global id that the job of the last placement asked for. */
  function Owner(acts: seq<Action>, s: Text): (g: Option<Text>)
    requires Exec(acts).Some?
  {
    if acts == [] then None
    else OwnerAfter(Exec(acts[..|acts| - 1]).value, acts[|acts| - 1], s, Owner(acts[..|acts| - 1], s))
  }

  function OwnerAfter(st: State, a: Action, s: Text, before: Option<Text>): (g: Option<Text>)
    requires Enabled(st, a)
  {
    if a.PlaceSession? && st.clients[a.i].job.session == s then Some(st.clients[a.i].job.global) else before
  }

  /** The closure that an EraseAlive completes is one of s. */
  predicate Completes(st: State, a: Action, s: Text)
    requires Enabled(st, a)
  {
    a.EraseAlive? && st.closers[a.j].session == s
  }

  function ClosedOn(st: State, a: Action): (g: Text)
    requires Enabled(st, a) && a.EraseAlive?
  {
    st.tables.processes[st.closers[a.j].process].globalId
  }

  /** Some closure of s was handled for a process of another global id than the job had asked for. */
  predicate Strayed(acts: seq<Action>, s: Text)
    requires Exec(acts).Some?
  {
    acts != [] &&
    var before, st, a := acts[..|acts| - 1], Exec(acts[..|acts| - 1]).value, acts[|acts| - 1];
    Strayed(before, s) || (Completes(st, a, s) && Owner(before, s) != Some(ClosedOn(st, a)))
  }

  // ----- exact sets

  /** An entry of a session in one of the sets. */
  datatype Entry = InAlive(g: Text) | InSwapped(g: Text)

  predicate Has(st: State, s: Text, e: Entry) {
    match e
    case InAlive(g) => (g, s) in st.alive
    case InSwapped(g) => (g, s) in st.swapped
  }

  predicate OnAList(st: State, s: Text) {
    exists p :: p in st.tables.processes && s in st.tables.processes[p].sessions
  }

  /** The session has exactly one entry, and that is in an ALIVE set exactly if it is on a process's list. */
  ghost predicate Exact(st: State, s: Text) {
    && (exists e :: Has(st, s, e))
    && (forall e, f :: Has(st, s, e) && Has(st, s, f) ==> e == f)
    && ((exists g :: (g, s) in st.alive) <==> OnAList(st, s))
  }

  // ----- the invariant of one session

  /** Auxiliary: the one handler of s under way; and the ALIVE entries that a stray closure left behind. */
  datatype Who = Nobody | ByClient(i: nat) | ByCloser(j: nat)

  function WhoAfter(st: State, a: Action, s: Text, before: Who): (who: Who)
    requires Enabled(st, a)
  {
    if !Concerns(st, a, s) then before
    else if IsClient(a) then
      var i := ClientIndex(a); if Works(Apply(st, a), i, s) then ByClient(i) else Nobody
    else if Closes(Apply(st, a), a.j, s) then ByCloser(a.j) else Nobody
  }

  function ClientIndex(a: Action): (i: nat)
    requires IsClient(a)
    ensures OfClient(a, i)
  {
    a.i
  }

  function StaleAfter(st: State, a: Action, s: Text, owner: Option<Text>, before: set<Text>): (stale: set<Text>)
    requires Enabled(st, a)
  {
    if Completes(st, a, s) then before + OptionSet(owner) - {ClosedOn(st, a)} else before
  }

  function OptionSet<T>(o: Option<T>): (s: set<T>) { if o.Some? then {o.value} else {} }

  function WhoOf(acts: seq<Action>, s: Text): (who: Who)
    requires Exec(acts).Some?
  {
    if acts == [] then Nobody
    else WhoAfter(Exec(acts[..|acts| - 1]).value, acts[|acts| - 1], s, WhoOf(acts[..|acts| - 1], s))
  }

  function Stale(acts: seq<Action>, s: Text): (stale: set<Text>)
    requires Exec(acts).Some?
  {
    if acts == [] then {}
    else
      var before := acts[..|acts| - 1];
      StaleAfter(Exec(before).value, acts[|acts| - 1], s, Owner(before, s), Stale(before, s))
  }

  predicate IsListed(loc: I.Map, s: Text) { s in loc && loc[s].Listed? }

  ghost predicate WhoOk(st: State, s: Text, who: Who) {
    && (forall i :: Works(st, i, s) <==> who == ByClient(i))
    && (forall j :: Closes(st, j, s) <==> who == ByCloser(j))
  }

  /** The owner's entry is in ALIVE: s is listed and marked, or being closed and not erased yet. */
  predicate Marked(clients: map<nat, Client>, loc: I.Map, s: Text, who: Who) {
    match who
    case Nobody => IsListed(loc, s)
    case ByClient(i) => IsListed(loc, s) && i in clients && !clients[i].Placed?
    case ByCloser(_) => true
  }

  ghost predicate AliveOk(st: State, loc: I.Map, s: Text, who: Who, owner: Option<Text>, stale: set<Text>) {
    forall g :: (g, s) in st.alive <==> g in stale || (Marked(st.clients, loc, s, who) && owner == Some(g))
  }

  ghost predicate OwnerOk(loc: I.Map, s: Text, who: Who, owner: Option<Text>, stale: set<Text>) {
    && (IsListed(loc, s) || who.ByCloser? ==> owner.Some? && owner.value !in stale)
    && (s !in loc ==> stale == {})
  }

  /** After its check a handler's global id has no stale entry; after its placement it is the owner. */
  ghost predicate HandlerOk(st: State, loc: I.Map, s: Text, who: Who, owner: Option<Text>, stale: set<Text>) {
    match who
    case Nobody => true
    case ByClient(i) =>
      i in st.clients &&
      (match st.clients[i]
       case Asked(_, _, _) => true
       case Placed(g, _) => owner == Some(g) && IsListed(loc, s)
       case c => c.Creating? || OptionSet(GlobalOf(c)) !! stale)
    case ByCloser(j) => j in st.closers && (st.closers[j].Parked? ==> s in loc && loc[s].Swapped?)
  }

  ghost predicate Tidy(st: State, loc: I.Map, s: Text, who: Who, owner: Option<Text>, stale: set<Text>, strayed: bool) {
    && WhoOk(st, s, who) && AliveOk(st, loc, s, who, owner, stale)
    && OwnerOk(loc, s, who, owner, stale) && HandlerOk(st, loc, s, who, owner, stale)
    && (strayed <==> stale != {})
  }

  // ----- global ids are never process ids

  ghost predicate ClientNames(clients: map<nat, Client>, names: set<Text>) {
    forall i :: i in clients ==> OptionSet(GlobalOf(clients[i])) <= names
  }

  ghost predicate ProcessNames(procs: map<Text, ProcessInfo>, names: set<Text>) {
    forall p :: p in procs ==> p !in names && procs[p].globalId in names
  }

  ghost predicate EntryNames(entries: set<(Text, Text)>, names: set<Text>) {
    forall g, s :: (g, s) in entries ==> g in names
  }

  ghost predicate NamesOk(st: State) {
    && ClientNames(st.clients, st.names) && ProcessNames(st.tables.processes, st.names)
    && EntryNames(st.alive, st.names) && EntryNames(st.swapped, st.names)
  }

  lemma {:induction false} RequestAllGlobals(t: Tables, p: Text, list: seq<Text>)
    requires p in t.processes
    ensures RequestAll(t, p, list).processes.Keys == t.processes.Keys
    ensures forall q :: q in t.processes ==> RequestAll(t, p, list).processes[q].globalId == t.processes[q].globalId
    decreases |list|
  {
    if list != [] {
      RequestAllGlobals(RequestOne(t, p, list[0]), p, list[1..]);
    }
  }

  /** Processes keep their global ids; only AddProcess adds one. */
  lemma GlobalIdsKept(st: State, a: Action)
    requires Enabled(st, a) && !a.AddProcess?
    ensures Apply(st, a).tables.processes.Keys == st.tables.processes.Keys
    ensures forall p :: p in st.tables.processes ==>
      Apply(st, a).tables.processes[p].globalId == st.tables.processes[p].globalId
  {
    hide Apply, Enabled;
    if a.Identify? {
      IdentifyGlobals(st, a);
    } else if a.PlaceSession? {
      PlaceGlobals(st, a);
    } else if a.ReserveFree? || a.AttachProcess? || a.RemoveSession? {
      UpdateGlobals(st, a);
    } else {
      Footprint(st, a);
    }
  }

  lemma IdentifyGlobals(st: State, a: Action)
    requires Enabled(st, a) && a.Identify?
    ensures Apply(st, a).tables.processes.Keys == st.tables.processes.Keys
    ensures forall p :: p in st.tables.processes ==>
      Apply(st, a).tables.processes[p].globalId == st.tables.processes[p].globalId
  {
    hide RequestAll;
    RequestAllGlobals(st.tables, a.p, st.tables.processes[a.p].sessions);
  }

  lemma PlaceGlobals(st: State, a: Action)
    requires Enabled(st, a) && a.PlaceSession?
    ensures Apply(st, a).tables.processes.Keys == st.tables.processes.Keys
    ensures forall p :: p in st.tables.processes ==>
      Apply(st, a).tables.processes[p].globalId == st.tables.processes[p].globalId
  {
    hide Submitted, Drops;
  }

  lemma UpdateGlobals(st: State, a: Action)
    requires Enabled(st, a) && (a.ReserveFree? || a.AttachProcess? || a.RemoveSession?)
    ensures Apply(st, a).tables.processes.Keys == st.tables.processes.Keys
    ensures forall p :: p in st.tables.processes ==>
      Apply(st, a).tables.processes[p].globalId == st.tables.processes[p].globalId
  {
    hide IndexOf, NulFree, HasRoom;
  }

  // ----- what an action touches

  predicate Marks(a: Action) { a.MarkAlive? || a.Unmark? || a.EraseAlive? }

  predicate MovesProcesses(a: Action) {
    a.ReserveFree? || a.AddProcess? || a.PlaceSession? || a.AttachProcess? || a.Identify? || a.RemoveSession?
  }

  /** No handler but its own, and the sets, the names and the processes only where it must. */
  ghost predicate Touches(st: State, st': State, a: Action) {
    && (forall i :: !OfClient(a, i) ==> SameClient(st, st', i))
    && (forall j :: !OfCloser(a, j) ==> SameCloser(st, st', j))
    && (!Marks(a) ==> st'.alive == st.alive)
    && (!a.Claim? && !a.Park? ==> st'.swapped == st.swapped)
    && st'.names == st.names + (if a.AddGlobal? then {a.g} else {})
    && (!MovesProcesses(a) ==> st'.tables.processes == st.tables.processes)
  }

  predicate SameClient(st: State, st': State, i: nat) {
    (i in st'.clients <==> i in st.clients) && (i in st.clients ==> st'.clients[i] == st.clients[i])
  }

  predicate SameCloser(st: State, st': State, j: nat) {
    (j in st'.closers <==> j in st.closers) && (j in st.closers ==> st'.closers[j] == st.closers[j])
  }

  lemma Footprint(st: State, a: Action)
    requires Enabled(st, a)
    ensures Touches(st, Apply(st, a), a)
  {
    hide Apply, Enabled, Touches;
    match a
    case Begin(_, _, _, _, _) => ResolveActs(st, a);
    case Create(_, _) => ResolveActs(st, a);
    case CheckAlive(_) => ResolveActs(st, a);
    case Claim(_) => ClaimActs(st, a);
    case ReadRecord(_) => ClaimActs(st, a);
    case ReserveFree(_, _) => ReserveActs(st, a);
    case FindNoFree(_) => ReserveActs(st, a);
    case AddProcess(_, _) => ReserveActs(st, a);
    case PlaceSession(_) => PlaceActs(st, a);
    case MarkAlive(_) => PlaceActs(st, a);
    case Take(_, _) => RemoveActs(st, a);
    case RemoveSession(_) => RemoveActs(st, a);
    case Unmark(_) => ParkActs(st, a);
    case Park(_) => ParkActs(st, a);
    case EraseAlive(_) => ParkActs(st, a);
    case AddGlobal(_) => TableActs(st, a);
    case AttachProcess(_) => TableActs(st, a);
    case Identify(_) => TableActs(st, a);
    case DrainSession(_) => TableActs(st, a);
    case _ => RuntimeActs(st, a);
  }

  lemma ResolveActs(st: State, a: Action)
    requires Enabled(st, a) && (a.Begin? || a.Create? || a.CheckAlive?)
    ensures Touches(st, Apply(st, a), a)
  {
    hide PrintRecord, FreshUuid;
  }

  lemma ClaimActs(st: State, a: Action)
    requires Enabled(st, a) && (a.Claim? || a.ReadRecord?)
    ensures Touches(st, Apply(st, a), a)
  {
    hide ParseRecord;
  }

  lemma ReserveActs(st: State, a: Action)
    requires Enabled(st, a) && (a.ReserveFree? || a.FindNoFree? || a.AddProcess?)
    ensures Touches(st, Apply(st, a), a)
  {
    hide FreshUuid, HasRoom, Reserve;
  }

  lemma PlaceActs(st: State, a: Action)
    requires Enabled(st, a) && (a.PlaceSession? || a.MarkAlive?)
    ensures Touches(st, Apply(st, a), a)
  {
    hide Place, Submitted, Drops;
  }

  lemma RemoveActs(st: State, a: Action)
    requires Enabled(st, a) && (a.Take? || a.RemoveSession?)
    ensures Touches(st, Apply(st, a), a)
  {
    hide Remove;
  }

  lemma ParkActs(st: State, a: Action)
    requires Enabled(st, a) && (a.Unmark? || a.Park? || a.EraseAlive?)
    ensures Touches(st, Apply(st, a), a)
  {
  }

  lemma RuntimeActs(st: State, a: Action)
    requires Enabled(st, a)
    requires a.Announce? || a.AllocateSession? || a.Reply? || a.DeleteSession? || a.ReportClosure?
    ensures Touches(st, Apply(st, a), a)
  {
    hide RuntimeSessions.Allocate, FindPid;
  }

  lemma TableActs(st: State, a: Action)
    requires Enabled(st, a) && (a.AddGlobal? || a.AttachProcess? || a.Identify? || a.DrainSession?)
    ensures Touches(st, Apply(st, a), a)
  {
    hide NulFree, RequestAll;
  }

  // ----- global ids, step by step

  /** The client handler of an action keeps its global id, or takes one that exists. */
  lemma OwnClient(st: State, a: Action, i: nat)
    requires Enabled(st, a) && OfClient(a, i) && ClientNames(st.clients, st.names)
    ensures i in Apply(st, a).clients && OptionSet(GlobalOf(Apply(st, a).clients[i])) <= st.names
  {
    hide Apply, Enabled, ClientNames;
    if a.Begin? || a.Create? || a.CheckAlive? {
      OwnResolves(st, a, i);
    } else if a.Claim? || a.ReadRecord? {
      OwnClaims(st, a, i);
    } else {
      OwnPlaces(st, a, i);
    }
  }

  lemma OwnResolves(st: State, a: Action, i: nat)
    requires Enabled(st, a) && OfClient(a, i) && ClientNames(st.clients, st.names)
    requires a.Begin? || a.Create? || a.CheckAlive?
    ensures i in Apply(st, a).clients && OptionSet(GlobalOf(Apply(st, a).clients[i])) <= st.names
  {
    hide PrintRecord, FreshUuid;
    assert !a.Begin? ==> OptionSet(GlobalOf(st.clients[i])) == {st.clients[i].global};
  }

  lemma OwnClaims(st: State, a: Action, i: nat)
    requires Enabled(st, a) && OfClient(a, i) && ClientNames(st.clients, st.names) && (a.Claim? || a.ReadRecord?)
    ensures i in Apply(st, a).clients && OptionSet(GlobalOf(Apply(st, a).clients[i])) <= st.names
  {
    hide ParseRecord;
    assert OptionSet(GlobalOf(st.clients[i])) == {st.clients[i].global};
  }

  lemma OwnPlaces(st: State, a: Action, i: nat)
    requires Enabled(st, a) && OfClient(a, i) && ClientNames(st.clients, st.names)
    requires a.ReserveFree? || a.FindNoFree? || a.AddProcess? || a.PlaceSession? || a.MarkAlive?
    ensures i in Apply(st, a).clients && OptionSet(GlobalOf(Apply(st, a).clients[i])) <= st.names
  {
    hide FreshUuid, Place, Submitted, HasRoom, Drops, Reserve;
    assert a.MarkAlive? || OptionSet(GlobalOf(st.clients[i])) == {st.clients[i].job.global};
  }

  lemma ClientNamesStep(st: State, a: Action)
    requires Enabled(st, a) && ClientNames(st.clients, st.names)
    ensures ClientNames(Apply(st, a).clients, Apply(st, a).names)
  {
    hide Apply, Enabled, OfClient;
    var st' := Apply(st, a);
    Footprint(st, a);
    forall i | i in st'.clients ensures OptionSet(GlobalOf(st'.clients[i])) <= st'.names {
      if OfClient(a, i) {
        OwnClient(st, a, i);
      } else {
        assert SameClient(st, st', i);
      }
    }
  }

  lemma ProcessNamesStep(st: State, a: Action)
    requires Enabled(st, a) && ClientNames(st.clients, st.names) && ProcessNames(st.tables.processes, st.names)
    requires st.tables.processes.Keys + st.names <= st.history.uuids
    ensures ProcessNames(Apply(st, a).tables.processes, Apply(st, a).names)
  {
    hide Apply, Enabled, ClientNames, OfClient, OfCloser, SameClient, SameCloser;
    if a.AddProcess? {
      AddedName(st, a);
    } else {
      NewName(st, a);
      GlobalIdsKept(st, a);
      Footprint(st, a);
    }
  }

  lemma NewName(st: State, a: Action)
    requires Enabled(st, a) && st.tables.processes.Keys <= st.history.uuids
    ensures a.AddGlobal? ==> a.g !in st.tables.processes
  {
    hide NulFree;
  }

  lemma AddedName(st: State, a: Action)
    requires Enabled(st, a) && ClientNames(st.clients, st.names) && ProcessNames(st.tables.processes, st.names)
    requires a.AddProcess? && st.names <= st.history.uuids
    ensures ProcessNames(Apply(st, a).tables.processes, Apply(st, a).names)
  {
    hide NulFree;
    assert OptionSet(GlobalOf(st.clients[a.i])) == {st.clients[a.i].job.global};
  }

  lemma AliveNamesStep(st: State, a: Action)
    requires Enabled(st, a) && ClientNames(st.clients, st.names) && EntryNames(st.alive, st.names)
    ensures EntryNames(Apply(st, a).alive, Apply(st, a).names)
  {
    if Marks(a) {
      assert a.MarkAlive? ==> OptionSet(GlobalOf(st.clients[a.i])) == {st.clients[a.i].global};
    } else {
      hide Apply, Enabled, OfClient, OfCloser, SameClient, SameCloser;
      Footprint(st, a);
    }
  }

  lemma SwappedNamesStep(st: State, a: Action)
    requires Enabled(st, a) && ProcessNames(st.tables.processes, st.names) && EntryNames(st.swapped, st.names)
    ensures EntryNames(Apply(st, a).swapped, Apply(st, a).names)
  {
    if !a.Claim? && !a.Park? {
      hide Apply, Enabled, OfClient, OfCloser, SameClient, SameCloser;
      Footprint(st, a);
    }
  }

  lemma NamesStep(st: State, a: Action)
    requires Enabled(st, a) && NamesOk(st) && st.tables.processes.Keys + st.names <= st.history.uuids
    ensures NamesOk(Apply(st, a))
  {
    hide Apply, Enabled, ClientNames, ProcessNames, EntryNames;
    ClientNamesStep(st, a);
    ProcessNamesStep(st, a);
    AliveNamesStep(st, a);
    SwappedNamesStep(st, a);
  }

  lemma UuidsPart(st: State, loc: I.Map)
    requires I.Inv(st, loc)
    ensures st.tables.processes.Keys + st.names <= st.history.uuids
  {
    hide I.Inv, I.ClientsOk, I.ListsOk, I.SwappedOk, I.ClosersOk, I.LinksOk, I.StagesOk, I.FlagsOk, I.JobsOk,
      I.CapacityOk, I.SessionsConfig;
    Runs.Parts(st, loc);
  }

  lemma {:induction false} RunNames(acts: seq<Action>)
    requires Exec(acts).Some?
    ensures NamesOk(Exec(acts).value)
  {
    if acts != [] {
      var before := acts[..|acts| - 1];
      RunNames(before);
      Runs.RunInv(before);
      hide NamesOk, I.Inv, Apply, Enabled;
      UuidsPart(Exec(before).value, Runs.Locations(before));
      NamesStep(Exec(before).value, acts[|acts| - 1]);
    }
  }

  // ----- actions of other sessions' handlers

  /** A client handler's session stays, ends, or is the one its action starts with. */
  lemma ClientSession(st: State, a: Action, i: nat, s: Text)
    requires Enabled(st, a) && OfClient(a, i)
    ensures Works(st, i, s) || Works(Apply(st, a), i, s) ==> Concerns(st, a, s)
  {
    hide ParseRecord, PrintRecord, FreshUuid, Place, Submitted, HasRoom, Drops, Reserve;
  }

  lemma CloserSession(st: State, a: Action, j: nat, s: Text)
    requires Enabled(st, a) && OfCloser(a, j)
    ensures Closes(st, j, s) || Closes(Apply(st, a), j, s) ==> Concerns(st, a, s)
  {
    hide Remove;
  }

  /** Handlers of s move only by actions that concern s. */
  lemma HandlersStay(st: State, a: Action, s: Text)
    requires Enabled(st, a) && !Concerns(st, a, s)
    ensures forall i :: Works(st, i, s) <==> Works(Apply(st, a), i, s)
    ensures forall i :: Works(st, i, s) ==> SameClient(st, Apply(st, a), i)
    ensures forall j :: Closes(st, j, s) <==> Closes(Apply(st, a), j, s)
    ensures forall j :: Closes(st, j, s) ==> SameCloser(st, Apply(st, a), j)
  {
    hide Apply, Enabled, OfClient, OfCloser, Concerns;
    Footprint(st, a);
    var st' := Apply(st, a);
    forall i ensures Works(st, i, s) <==> Works(st', i, s)
             ensures Works(st, i, s) ==> SameClient(st, st', i)
    {
      if OfClient(a, i) {
        ClientSession(st, a, i, s);
      } else {
        assert SameClient(st, st', i);
      }
    }
    forall j ensures Closes(st, j, s) <==> Closes(st', j, s)
             ensures Closes(st, j, s) ==> SameCloser(st, st', j)
    {
      if OfCloser(a, j) {
        CloserSession(st, a, j, s);
      } else {
        assert SameCloser(st, st', j);
      }
    }
  }

  lemma EntriesStay(st: State, a: Action, s: Text)
    requires Enabled(st, a) && !Concerns(st, a, s)
    ensures forall g :: (g, s) in Apply(st, a).alive <==> (g, s) in st.alive
  {
    if !Marks(a) {
      hide Apply, Enabled, OfClient, OfCloser, Concerns, SameClient, SameCloser;
      Footprint(st, a);
    }
  }

  /** The session a runtime, an identification or a closure moves stays listed. */
  lemma MovesListed(st: State, loc: I.Map, a: Action)
    requires I.Inv(st, loc) && Enabled(st, a) && !IsClient(a) && !IsCloser(a)
    ensures I.NextLoc(st, loc, a).Keys == loc.Keys
    ensures forall s :: IsListed(loc, s) <==> IsListed(I.NextLoc(st, loc, a), s)
    ensures forall s :: s in loc && !loc[s].Listed? ==> I.At(I.NextLoc(st, loc, a), s, loc[s])
  {
    hide I.Inv, Apply, I.LinkOk, I.ClosersOk, NoDup, Hosts;
    match a
    case Identify(p) => Theorems.Linked(st, loc, p);
    case AllocateSession(p, o) =>
      Theorems.Linked(st, loc, p);
      Moves.PendingFact(p, st.links[p], st.tables.processes[p].sent, loc);
    case DeleteSession(p, pid, _) =>
      Theorems.Linked(st, loc, p);
      var k := RuntimeSessions.FindPid(st.links[p].forks, pid);
      if k < |st.links[p].forks| {
        Moves.ForkFact(p, st.links[p], st.tables.processes[p].sent, loc, k);
      }
    case ReportClosure(p, c) =>
      Theorems.Linked(st, loc, p);
      Moves.ClosingFact(p, st.links[p], st.tables.processes[p].sent, loc, c);
    case _ =>
  }

  ghost predicate SamePlace(loc: I.Map, loc': I.Map, s: Text) {
    && (s in loc' <==> s in loc)
    && (IsListed(loc', s) <==> IsListed(loc, s))
    && (s in loc && !loc[s].Listed? ==> loc'[s] == loc[s])
  }

  lemma PlaceStays(st: State, loc: I.Map, a: Action, s: Text)
    requires I.Inv(st, loc) && Enabled(st, a) && !Concerns(st, a, s)
    ensures SamePlace(loc, I.NextLoc(st, loc, a), s)
  {
    hide I.Inv;
    if !IsClient(a) && !IsCloser(a) {
      hide I.NextLoc, Enabled, Concerns;
      MovesListed(st, loc, a);
    } else {
      HandlersPlace(st, loc, a, s);
    }
  }

  lemma HandlersPlace(st: State, loc: I.Map, a: Action, s: Text)
    requires Enabled(st, a) && !Concerns(st, a, s) && (IsClient(a) || IsCloser(a))
    ensures SamePlace(loc, I.NextLoc(st, loc, a), s)
  {
    hide FreshUuid, HasRoom;
  }

  /** What concerns no handler of s leaves its part of the invariant alone. */
  lemma OtherStep(st: State, loc: I.Map, a: Action, s: Text, who: Who, owner: Option<Text>, stale: set<Text>,
      strayed: bool)
    requires I.Inv(st, loc) && Enabled(st, a) && !Concerns(st, a, s) && Tidy(st, loc, s, who, owner, stale, strayed)
    ensures Tidy(Apply(st, a), I.NextLoc(st, loc, a), s, who, owner, stale, strayed)
  {
    hide I.Inv, Enabled, Apply, I.NextLoc, Concerns, Works, Closes;
    HandlersStay(st, a, s);
    EntriesStay(st, a, s);
    PlaceStays(st, loc, a, s);
    Unmoved(st, Apply(st, a), loc, I.NextLoc(st, loc, a), s, who, owner, stale, strayed);
  }

  lemma Unmoved(st: State, st': State, loc: I.Map, loc': I.Map, s: Text, who: Who, owner: Option<Text>,
      stale: set<Text>,
                strayed: bool)
    requires Tidy(st, loc, s, who, owner, stale, strayed) && SamePlace(loc, loc', s)
    requires forall i :: Works(st, i, s) <==> Works(st', i, s)
    requires forall i :: Works(st, i, s) ==> SameClient(st, st', i)
    requires forall j :: Closes(st, j, s) <==> Closes(st', j, s)
    requires forall j :: Closes(st, j, s) ==> SameCloser(st, st', j)
    requires forall g :: (g, s) in st'.alive <==> (g, s) in st.alive
    ensures Tidy(st', loc', s, who, owner, stale, strayed)
  {
    match who
    case Nobody =>
    case ByClient(i) => assert Works(st, i, s) && SameClient(st, st', i);
    case ByCloser(j) => assert Closes(st, j, s) && SameCloser(st, st', j);
  }

  lemma OthersAfter(st: State, a: Action, s: Text, who: Who, owner: Option<Text>, stale: set<Text>)
    requires Enabled(st, a) && !Concerns(st, a, s)
    ensures WhoAfter(st, a, s, who) == who && OwnerAfter(st, a, s, owner) == owner
    ensures StaleAfter(st, a, s, owner, stale) == stale && !Completes(st, a, s)
  {
    hide Apply, ParseRecord, PrintRecord;
  }

  // ----- actions of the session's own handlers

  /** After an action of the only handler of s, it or nobody is under way. */
  lemma WhoStep(st: State, a: Action, s: Text, who: Who)
    requires Enabled(st, a) && Concerns(st, a, s) && Apart(st, a, s) && WhoOk(st, s, who)
    requires IsClient(a) || IsCloser(a)
    ensures WhoOk(Apply(st, a), s, WhoAfter(st, a, s, who))
  {
    hide Apply, Enabled, Concerns, Works, Closes;
    Footprint(st, a);
    WorksLocal(st, Apply(st, a), a, s);
    hide SameClient, SameCloser, OfClient, OfCloser;
    OneKind(a);
  }

  lemma OneKind(a: Action)
    ensures IsClient(a) ==> (forall j :: !OfCloser(a, j)) && forall i :: OfClient(a, i) <==> i == ClientIndex(a)
    ensures IsCloser(a) ==> (forall i :: !OfClient(a, i)) && forall j :: OfCloser(a, j) <==> j == a.j
  {
  }

  lemma WorksLocal(st: State, st': State, a: Action, s: Text)
    requires Touches(st, st', a)
    ensures forall i :: !OfClient(a, i) ==> (Works(st', i, s) <==> Works(st, i, s))
    ensures forall j :: !OfCloser(a, j) ==> (Closes(st', j, s) <==> Closes(st, j, s))
  {
    hide OfClient, OfCloser;
    forall i | !OfClient(a, i) ensures Works(st', i, s) <==> Works(st, i, s) {
      assert SameClient(st, st', i);
    }
    forall j | !OfCloser(a, j) ensures Closes(st', j, s) <==> Closes(st, j, s) {
      assert SameCloser(st, st', j);
    }
  }

  /** Tidy apart from who is under way. */
  ghost predicate Located(st: State, loc: I.Map, s: Text, who: Who, owner: Option<Text>, stale: set<Text>) {
    && AliveOk(st, loc, s, who, owner, stale) && OwnerOk(loc, s, who, owner, stale)
    && HandlerOk(st, loc, s, who, owner, stale)
  }

  /** The client handler of s that acts was the only handler of s, or there was none. */
  lemma WhoWas(st: State, a: Action, s: Text, who: Who)
    requires Enabled(st, a) && Concerns(st, a, s) && Apart(st, a, s) && WhoOk(st, s, who)
    ensures IsClient(a) && !a.Begin? && !a.Create? ==> who == ByClient(ClientIndex(a))
    ensures a.Begin? || a.Create? || a.Take? ==> who == Nobody
    ensures IsCloser(a) && !a.Take? ==> who == ByCloser(a.j)
    ensures IsClient(a) || IsCloser(a)
  {
    hide Apply, FreshUuid, HasRoom;
    if who.ByClient? {
      assert Works(st, who.i, s);
    }
    if who.ByCloser? {
      assert Closes(st, who.j, s);
    }
  }

  /** The mark does not depend on a client handler that has not placed. */
  predicate BeforePlacing(st: State, who: Who) {
    who.Nobody? || (who.ByClient? && who.i in st.clients && !st.clients[who.i].Placed?)
  }

  lemma ClientMoves(st: State, st': State, loc: I.Map, s: Text, who: Who, who': Who, owner: Option<Text>,
      stale: set<Text>)
    requires Located(st, loc, s, who, owner, stale) && st'.alive == st.alive
    requires BeforePlacing(st, who) && BeforePlacing(st', who') && HandlerOk(st', loc, s, who', owner, stale)
    ensures Located(st', loc, s, who', owner, stale)
  {
    hide HandlerOk;
  }

  lemma BeginLocated(st: State, loc: I.Map, i: nat, g: Text, s: Text, c: Config, inv: Option<Invocation>,
                     owner: Option<Text>, stale: set<Text>)
    requires Enabled(st, Begin(i, g, s, c, inv)) && Located(st, loc, s, Nobody, owner, stale)
    ensures
      var a := Begin(i, g, s, c, inv);
      Located(Apply(st, a), loc, s, WhoAfter(st, a, s, Nobody), owner, stale)
  {
    var a := Begin(i, g, s, c, inv);
    ClientMoves(st, Apply(st, a), loc, s, Nobody, WhoAfter(st, a, s, Nobody), owner, stale);
  }

  lemma CheckLocated(st: State, loc: I.Map, i: nat, s: Text, owner: Option<Text>, stale: set<Text>)
    requires CanCheckAlive(st, i) && Works(st, i, s) && Located(st, loc, s, ByClient(i), owner, stale)
    ensures
      var a := CheckAlive(i);
      Located(Apply(st, a), loc, s, WhoAfter(st, a, s, ByClient(i)), owner, stale)
  {
    var a := CheckAlive(i);
    assert (st.clients[i].global, s) !in st.alive ==> st.clients[i].global !in stale;
    ClientMoves(st, Apply(st, a), loc, s, ByClient(i), WhoAfter(st, a, s, ByClient(i)), owner, stale);
  }

  /** The handler goes on towards its placement with the same global id. */
  lemma PlainLocated(st: State, loc: I.Map, a: Action, s: Text, owner: Option<Text>, stale: set<Text>)
    requires Enabled(st, a) && (a.ReadRecord? || a.ReserveFree? || a.FindNoFree? || a.AddProcess?)
    requires Works(st, a.i, s) && Located(st, loc, s, ByClient(a.i), owner, stale)
    ensures Located(Apply(st, a), loc, s, WhoAfter(st, a, s, ByClient(a.i)), owner, stale)
  {
    hide FreshUuid, HasRoom, ParseRecord, Reserve, Located;
    var st' := Apply(st, a);
    assert st'.alive == st.alive && st'.clients == st.clients[a.i := st'.clients[a.i]];
    assert HandlerOk(st', loc, s, WhoAfter(st, a, s, ByClient(a.i)), owner, stale) by {
      HandlerPart(st, loc, s, ByClient(a.i), owner, stale);
    }
    assert BeforePlacing(st, ByClient(a.i)) && BeforePlacing(st', WhoAfter(st, a, s, ByClient(a.i)));
    ClientMoves(st, st', loc, s, ByClient(a.i), WhoAfter(st, a, s, ByClient(a.i)), owner, stale);
  }

  lemma HandlerPart(st: State, loc: I.Map, s: Text, who: Who, owner: Option<Text>, stale: set<Text>)
    requires Located(st, loc, s, who, owner, stale)
    ensures HandlerOk(st, loc, s, who, owner, stale)
  {
    hide AliveOk, OwnerOk, HandlerOk;
  }

  lemma CreateLocated(st: State, loc: I.Map, i: nat, s: Text, owner: Option<Text>, stale: set<Text>)
    requires CanCreate(st, i, s) && s !in loc && Located(st, loc, s, Nobody, owner, stale)
    ensures
      var a := Create(i, s);
      Located(Apply(st, a), loc[s := I.Claimed(i)], s, WhoAfter(st, a, s, Nobody), owner, stale)
  {
    hide FreshUuid, PrintRecord;
  }

  lemma ClaimLocated(st: State, loc: I.Map, i: nat, s: Text, owner: Option<Text>, stale: set<Text>)
    requires CanClaim(st, i) && Works(st, i, s) && Located(st, loc, s, ByClient(i), owner, stale)
    requires forall g :: (g, s) in st.swapped ==> I.At(loc, s, I.Swapped(g))
    ensures
      var a := Claim(i);
      Located(Apply(st, a), I.Claiming(st, loc, i), s, WhoAfter(st, a, s, ByClient(i)), owner, stale)
  {
    var a := Claim(i);
    if (st.clients[i].global, s) !in st.swapped {
      ClientMoves(st, Apply(st, a), loc, s, ByClient(i), WhoAfter(st, a, s, ByClient(i)), owner, stale);
    }
  }

  lemma SwappedPart(st: State, loc: I.Map)
    requires I.Inv(st, loc)
    ensures forall x, s :: (x, s) in st.swapped ==> I.At(loc, s, I.Swapped(x))
  {
    hide I.ClientsOk, I.ListsOk, I.ClosersOk, I.LinksOk, I.Flags, I.Values;
  }

  lemma ClaimedPart(st: State, loc: I.Map, i: nat)
    requires I.Inv(st, loc) && i in st.clients && I.Claims(st.clients[i])
    ensures I.At(loc, I.ClaimOf(st.clients[i]), I.Claimed(i))
  {
    hide I.ListsOk, I.SwappedOk, I.ClosersOk, I.LinksOk, I.Flags, I.Values;
  }

  lemma PlaceLocated(st: State, loc: I.Map, i: nat, s: Text, owner: Option<Text>, stale: set<Text>)
    requires CanPlace(st, i) && Works(st, i, s) && Located(st, loc, s, ByClient(i), owner, stale)
    requires I.At(loc, s, I.Claimed(i))
    ensures
      var a := PlaceSession(i);
      Located(Apply(st, a), I.Placing(st, loc, i), s, WhoAfter(st, a, s, ByClient(i)),
              OwnerAfter(st, a, s, owner), stale)
  {
    hide Place, Submitted, Drops;
    assert OptionSet(GlobalOf(st.clients[i])) == {st.clients[i].job.global};
  }

  lemma MarkLocated(st: State, loc: I.Map, i: nat, s: Text, owner: Option<Text>, stale: set<Text>)
    requires CanMarkAlive(st, i) && Works(st, i, s) && Located(st, loc, s, ByClient(i), owner, stale)
    ensures
      var a := MarkAlive(i);
      Located(Apply(st, a), loc, s, WhoAfter(st, a, s, ByClient(i)), owner, stale)
  {
  }

  lemma TakeLocated(st: State, loc: I.Map, p: Text, j: nat, s: Text, owner: Option<Text>, stale: set<Text>)
    requires CanTake(st, p, j) && IsListed(loc, s) && Located(st, loc, s, Nobody, owner, stale)
    requires st.links[p].up[0].Closed? && st.links[p].up[0].closure.session == s
    ensures
      var a := Take(p, j);
      Located(Apply(st, a), I.Taking(st, loc, p, j), s, WhoAfter(st, a, s, Nobody), owner, stale)
  {
  }

  lemma TakenListed(st: State, loc: I.Map, p: Text)
    requires I.Inv(st, loc) && p in st.links && st.links[p].up != [] && st.links[p].up[0].Closed?
    ensures IsListed(loc, st.links[p].up[0].closure.session)
  {
    Theorems.Linked(st, loc, p);
    hide I.Inv, I.ClosersOk, NoDup;
    Moves.UpFact(p, st.links[p], st.tables.processes[p].sent, loc);
  }

  lemma RemoveLocated(st: State, loc: I.Map, j: nat, s: Text, owner: Option<Text>, stale: set<Text>)
    requires CanRemove(st, j) && Closes(st, j, s) && Located(st, loc, s, ByCloser(j), owner, stale)
    ensures
      var a := RemoveSession(j);
      Located(Apply(st, a), loc[s := I.Leaving(j)], s, WhoAfter(st, a, s, ByCloser(j)), owner, stale)
  {
    hide Remove;
  }

  lemma UnmarkLocated(st: State, loc: I.Map, j: nat, s: Text, owner: Option<Text>, stale: set<Text>)
    requires CanUnmark(st, j) && Closes(st, j, s) && Located(st, loc, s, ByCloser(j), owner, stale)
    requires NamesOk(st) && st.closers[j].process in st.tables.processes
    ensures
      var a := Unmark(j);
      Located(Apply(st, a), loc, s, WhoAfter(st, a, s, ByCloser(j)), owner, stale)
  {
    assert (st.closers[j].process, s) !in st.alive;
    hide NamesOk;
    assert Apply(st, Unmark(j)).alive == st.alive;
  }

  lemma ParkLocated(st: State, loc: I.Map, j: nat, s: Text, owner: Option<Text>, stale: set<Text>)
    requires CanPark(st, j) && Closes(st, j, s) && Located(st, loc, s, ByCloser(j), owner, stale)
    ensures
      var a := Park(j);
      Located(Apply(st, a), loc[s := I.Swapped(st.tables.processes[st.closers[j].process].globalId)], s,
              WhoAfter(st, a, s, ByCloser(j)), owner, stale)
  {
  }

  /** The last step of a closure: the owner's entry stays behind unless the process was one of the owner. */
  lemma EraseLocated(st: State, loc: I.Map, j: nat, s: Text, owner: Option<Text>, stale: set<Text>, strayed: bool)
    requires CanErase(st, j) && Closes(st, j, s) && Located(st, loc, s, ByCloser(j), owner, stale)
    requires strayed <==> stale != {}
    ensures
      var a := EraseAlive(j);
      var stale' := StaleAfter(st, a, s, owner, stale);
      && Located(Apply(st, a), loc, s, WhoAfter(st, a, s, ByCloser(j)), owner, stale')
      && (strayed || owner != Some(ClosedOn(st, a)) <==> stale' != {})
  {
    var a := EraseAlive(j);
    var g, stale' := ClosedOn(st, a), StaleAfter(st, a, s, owner, stale);
    if owner == Some(g) {
      assert stale' == stale;
    } else {
      assert owner.value in stale';
    }
  }

  lemma ClientLocated(st: State, loc: I.Map, a: Action, s: Text, who: Who, owner: Option<Text>, stale: set<Text>)
    requires I.Inv(st, loc) && Enabled(st, a) && Concerns(st, a, s) && IsClient(a)
    requires Located(st, loc, s, who, owner, stale)
    requires who == if a.Begin? || a.Create? then Nobody else ByClient(ClientIndex(a))
    ensures Located(Apply(st, a), I.NextLoc(st, loc, a), s, WhoAfter(st, a, s, who), OwnerAfter(st, a, s, owner), stale)
  {
    hide I.Inv, Located, Apply, WhoAfter, OwnerAfter, I.Claiming, I.Placing, FreshUuid, HasRoom;
    OwnerOnlyByPlacing(st, a, s, owner);
    match a
    case Begin(i, g, t, c, inv) => BeginLocated(st, loc, i, g, s, c, inv, owner, stale);
    case Create(i, t) =>
      Runs.Fresh(st, loc, s);
      CreateLocated(st, loc, i, s, owner, stale);
    case CheckAlive(i) => CheckLocated(st, loc, i, s, owner, stale);
    case Claim(i) =>
      SwappedPart(st, loc);
      ClaimLocated(st, loc, i, s, owner, stale);
    case PlaceSession(i) =>
      ClaimedPart(st, loc, i);
      PlaceLocated(st, loc, i, s, owner, stale);
    case MarkAlive(i) => MarkLocated(st, loc, i, s, owner, stale);
    case _ => PlainLocated(st, loc, a, s, owner, stale);
  }

  lemma OwnerOnlyByPlacing(st: State, a: Action, s: Text, owner: Option<Text>)
    requires Enabled(st, a)
    ensures !a.PlaceSession? ==> OwnerAfter(st, a, s, owner) == owner
  {
  }

  lemma CloserLocated(st: State, loc: I.Map, a: Action, s: Text, who: Who, owner: Option<Text>, stale: set<Text>)
    requires I.Inv(st, loc) && Enabled(st, a) && Concerns(st, a, s) && IsCloser(a) && !a.EraseAlive?
    requires Located(st, loc, s, who, owner, stale) && NamesOk(st)
    requires who == if a.Take? then Nobody else ByCloser(a.j)
    ensures Located(Apply(st, a), I.NextLoc(st, loc, a), s, WhoAfter(st, a, s, who), owner, stale)
  {
    hide I.Inv, Located, Apply, WhoAfter, NamesOk, I.Taking;
    match a
    case Take(p, j) =>
      TakenListed(st, loc, p);
      TakeLocated(st, loc, p, j, s, owner, stale);
    case RemoveSession(j) => RemoveLocated(st, loc, j, s, owner, stale);
    case Unmark(j) =>
      CloserProcess(st, loc, j);
      UnmarkLocated(st, loc, j, s, owner, stale);
    case Park(j) => ParkLocated(st, loc, j, s, owner, stale);
  }

  lemma CloserProcess(st: State, loc: I.Map, j: nat)
    requires I.Inv(st, loc) && j in st.closers && !st.closers[j].Finished?
    ensures st.closers[j].process in st.tables.processes
  {
    hide I.ClientsOk, I.ListsOk, I.SwappedOk, I.LinksOk, I.Flags, I.Values;
  }

  predicate StrayedAfter(st: State, a: Action, s: Text, owner: Option<Text>, before: bool)
    requires Enabled(st, a)
  {
    before || (Completes(st, a, s) && owner != Some(ClosedOn(st, a)))
  }

  lemma OwnLocated(st: State, loc: I.Map, a: Action, s: Text, who: Who, owner: Option<Text>, stale: set<Text>,
                   strayed: bool)
    requires I.Inv(st, loc) && Enabled(st, a) && Concerns(st, a, s) && Apart(st, a, s) && NamesOk(st)
    requires WhoOk(st, s, who) && Located(st, loc, s, who, owner, stale) && (strayed <==> stale != {})
    ensures Located(Apply(st, a), I.NextLoc(st, loc, a), s, WhoAfter(st, a, s, who), OwnerAfter(st, a, s, owner),
                    StaleAfter(st, a, s, owner, stale))
    ensures StrayedAfter(st, a, s, owner, strayed) <==> StaleAfter(st, a, s, owner, stale) != {}
  {
    hide I.Inv, Enabled, Apply, Concerns, Apart, NamesOk, Located, WhoOk, WhoAfter, OwnerAfter, StaleAfter,
      StrayedAfter, Completes, I.NextLoc, OfClient;
    WhoWas(st, a, s, who);
    if a.EraseAlive? {
      EraseStep(st, loc, a.j, s, owner, stale, strayed);
    } else {
      NoErase(st, a, s, owner, stale, strayed);
      OwnerOnlyByPlacing(st, a, s, owner);
      if IsClient(a) {
        ClientLocated(st, loc, a, s, who, owner, stale);
      } else {
        CloserLocated(st, loc, a, s, who, owner, stale);
      }
    }
  }

  lemma OwnStep(st: State, loc: I.Map, a: Action, s: Text, who: Who, owner: Option<Text>, stale: set<Text>,
      strayed: bool)
    requires I.Inv(st, loc) && Enabled(st, a) && Concerns(st, a, s) && Apart(st, a, s) && NamesOk(st)
    requires Tidy(st, loc, s, who, owner, stale, strayed)
    ensures Tidy(Apply(st, a), I.NextLoc(st, loc, a), s, WhoAfter(st, a, s, who), OwnerAfter(st, a, s, owner),
                 StaleAfter(st, a, s, owner, stale), StrayedAfter(st, a, s, owner, strayed))
  {
    hide I.Inv, Enabled, Apply, Concerns, Apart, NamesOk, Tidy, Located, WhoOk, WhoAfter, OwnerAfter, StaleAfter,
      StrayedAfter, Completes, I.NextLoc, OfClient;
    TidyParts(st, loc, s, who, owner, stale, strayed);
    WhoWas(st, a, s, who);
    WhoStep(st, a, s, who);
    OwnLocated(st, loc, a, s, who, owner, stale, strayed);
    TidyFrom(Apply(st, a), I.NextLoc(st, loc, a), s, WhoAfter(st, a, s, who), OwnerAfter(st, a, s, owner),
             StaleAfter(st, a, s, owner, stale), StrayedAfter(st, a, s, owner, strayed));
  }

  lemma NoErase(st: State, a: Action, s: Text, owner: Option<Text>, stale: set<Text>, strayed: bool)
    requires Enabled(st, a) && !a.EraseAlive?
    ensures StaleAfter(st, a, s, owner, stale) == stale && (StrayedAfter(st, a, s, owner, strayed) <==> strayed)
  {
  }

  lemma EraseStep(st: State, loc: I.Map, j: nat, s: Text, owner: Option<Text>, stale: set<Text>, strayed: bool)
    requires Enabled(st, EraseAlive(j)) && Concerns(st, EraseAlive(j), s)
    requires Located(st, loc, s, ByCloser(j), owner, stale)
    requires strayed <==> stale != {}
    ensures
      var a := EraseAlive(j);
      var stale' := StaleAfter(st, a, s, owner, stale);
      && Located(Apply(st, a), I.NextLoc(st, loc, a), s, WhoAfter(st, a, s, ByCloser(j)),
                 OwnerAfter(st, a, s, owner), stale')
      && (StrayedAfter(st, a, s, owner, strayed) <==> stale' != {})
  {
    hide Located, Apply, WhoAfter;
    EraseLocated(st, loc, j, s, owner, stale, strayed);
  }

  lemma TidyParts(st: State, loc: I.Map, s: Text, who: Who, owner: Option<Text>, stale: set<Text>, strayed: bool)
    requires Tidy(st, loc, s, who, owner, stale, strayed)
    ensures WhoOk(st, s, who) && Located(st, loc, s, who, owner, stale) && (strayed <==> stale != {})
  {
    hide WhoOk, AliveOk, OwnerOk, HandlerOk;
  }

  lemma TidyFrom(st: State, loc: I.Map, s: Text, who: Who, owner: Option<Text>, stale: set<Text>, strayed: bool)
    requires WhoOk(st, s, who) && Located(st, loc, s, who, owner, stale) && (strayed <==> stale != {})
    ensures Tidy(st, loc, s, who, owner, stale, strayed)
  {
    hide WhoOk, AliveOk, OwnerOk, HandlerOk;
  }

  lemma TidyStep(st: State, loc: I.Map, a: Action, s: Text, who: Who, owner: Option<Text>, stale: set<Text>,
      strayed: bool)
    requires I.Inv(st, loc) && Enabled(st, a) && Apart(st, a, s) && NamesOk(st)
    requires Tidy(st, loc, s, who, owner, stale, strayed)
    ensures Tidy(Apply(st, a), I.NextLoc(st, loc, a), s, WhoAfter(st, a, s, who), OwnerAfter(st, a, s, owner),
                 StaleAfter(st, a, s, owner, stale), StrayedAfter(st, a, s, owner, strayed))
  {
    hide I.Inv, Enabled, Apply, Concerns, Apart, NamesOk, Tidy, WhoAfter, OwnerAfter, StaleAfter, Completes, I.NextLoc;
    if Concerns(st, a, s) {
      OwnStep(st, loc, a, s, who, owner, stale, strayed);
    } else {
      OtherStep(st, loc, a, s, who, owner, stale, strayed);
      OthersAfter(st, a, s, who, owner, stale);
    }
  }

  /** What is known of s after any run that keeps its handlers apart. */
  lemma {:induction false} RunTidy(acts: seq<Action>, s: Text)
    requires ApartRun(acts, s)
    ensures Tidy(Exec(acts).value, Runs.Locations(acts), s, WhoOf(acts, s), Owner(acts, s), Stale(acts, s),
                 Strayed(acts, s))
  {
    if acts == [] {
    } else {
      var before, a := acts[..|acts| - 1], acts[|acts| - 1];
      RunTidy(before, s);
      Runs.RunInv(before);
      RunNames(before);
      hide I.Inv, Enabled, Apply, Apart, NamesOk, Tidy, WhoAfter, OwnerAfter, StaleAfter, Completes, I.NextLoc;
      TidyStep(Exec(before).value, Runs.Locations(before), a, s, WhoOf(before, s), Owner(before, s), Stale(before, s),
               Strayed(before, s));
    }
  }

  // ----- results

  /** Without a handler under way a session is listed or swapped. */
  lemma QuietPlace(st: State, loc: I.Map, s: Text)
    requires I.Inv(st, loc) && Quiet(st, s) && s in st.history.created
    ensures s in loc && (loc[s].Listed? || loc[s].Swapped?)
    ensures OnAList(st, s) <==> loc[s].Listed?
    ensures forall g :: (g, s) in st.swapped <==> loc[s] == I.Swapped(g)
  {
    hide I.Inv, I.ClientsOk, I.ListsOk, I.SwappedOk, I.ClosersOk, I.LinksOk, I.StagesOk, I.FlagsOk, I.JobsOk,
      I.CapacityOk,
      I.IdsOk, I.SessionsConfig, Quiet, OnAList;
    Runs.Parts(st, loc);
    NoHandler(st, loc, s);
    ListedIff(st, loc, s);
  }

  lemma NoHandler(st: State, loc: I.Map, s: Text)
    requires I.ClientsOk(st.clients, loc) && I.ClosersOk(st.closers, st.tables.processes, loc) && Quiet(st, s)
    ensures s in loc ==> !loc[s].Claimed? && !loc[s].Leaving?
  {
    QuietNone(st, s);
    hide Quiet;
    assert s in loc && loc[s].Claimed? ==> Works(st, loc[s].i, s);
    assert s in loc && loc[s].Leaving? ==> Closes(st, loc[s].j, s);
  }

  lemma ListedIff(st: State, loc: I.Map, s: Text)
    requires I.ListsOk(st.tables.processes, loc) && I.SwappedOk(st.swapped, loc) && s in loc
    ensures OnAList(st, s) <==> loc[s].Listed?
    ensures forall g :: (g, s) in st.swapped <==> loc[s] == I.Swapped(g)
  {
    hide NoDup;
  }

  lemma QuietNone(st: State, s: Text)
    requires Quiet(st, s)
    ensures forall i :: !Works(st, i, s)
    ensures forall j :: !Closes(st, j, s)
  {
  }

  /** The entries of a session without a handler: one of its own, and the stale ones. */
  lemma QuietEntries(st: State, loc: I.Map, s: Text, who: Who, owner: Option<Text>, stale: set<Text>, strayed: bool)
    requires Tidy(st, loc, s, who, owner, stale, strayed) && Quiet(st, s)
    ensures forall g :: (g, s) in st.alive <==> g in stale || (IsListed(loc, s) && owner == Some(g))
    ensures IsListed(loc, s) ==> owner.Some? && owner.value !in stale
    ensures strayed <==> stale != {}
  {
    QuietNone(st, s);
    hide Works, Closes, HandlerOk, Quiet;
    assert who.Nobody?;
  }

  lemma QuietSets(st: State, loc: I.Map, s: Text, who: Who, owner: Option<Text>, stale: set<Text>, strayed: bool)
    requires I.Inv(st, loc) && Tidy(st, loc, s, who, owner, stale, strayed) && Quiet(st, s) && s in st.history.created
    ensures Exact(st, s) <==> !strayed
  {
    hide I.Inv, Tidy, Quiet, OnAList;
    QuietPlace(st, loc, s);
    QuietEntries(st, loc, s, who, owner, stale, strayed);
    var own := if loc[s].Listed? then InAlive(owner.value) else InSwapped(loc[s].g);
    assert Has(st, s, own);
    if stale != {} {
      var g :| g in stale;
      assert Has(st, s, InAlive(g)) && InAlive(g) != own;
    } else {
      assert forall e :: Has(st, s, e) ==> e == own;
      assert loc[s].Listed? ==> (owner.value, s) in st.alive;
    }
  }

  /** At any moment at which no handler of s is under way: its entries are exact if and only if, so far, every closure
      of s was handled for a process of the global id that the job of its placement had asked for. */
  lemma ExactIff(acts: seq<Action>, st: State, s: Text)
    requires ApartRun(acts, s) && Exec(acts) == Some(st) && Quiet(st, s) && s in st.history.created
    ensures Exact(st, s) <==> !Strayed(acts, s)
  {
    hide Exec, I.Inv, Exact, Tidy, Quiet;
    RunTidy(acts, s);
    Runs.RunInv(acts);
    QuietSets(st, Runs.Locations(acts), s, WhoOf(acts, s), Owner(acts, s), Stale(acts, s), Strayed(acts, s));
  }

  /** Owners and processes have global ids that exist. */
  lemma {:induction false} OwnerNamed(acts: seq<Action>, s: Text)
    requires Exec(acts).Some?
    ensures OptionSet(Owner(acts, s)) <= Exec(acts).value.names
  {
    if acts != [] {
      var before, a := acts[..|acts| - 1], acts[|acts| - 1];
      OwnerNamed(before, s);
      RunNames(before);
      OwnerNamedStep(Exec(before).value, a, s, Owner(before, s)) by { hide Apply, Enabled; }
    }
  }

  lemma OwnerNamedStep(st: State, a: Action, s: Text, owner: Option<Text>)
    requires Enabled(st, a) && NamesOk(st) && OptionSet(owner) <= st.names
    ensures OptionSet(OwnerAfter(st, a, s, owner)) <= Apply(st, a).names
  {
    assert a.PlaceSession? ==> OptionSet(GlobalOf(st.clients[a.i])) == {st.clients[a.i].job.global};
    hide Apply, OfClient, OfCloser, SameClient, SameCloser;
    Footprint(st, a);
  }

  /** With one global process no closure strays. */
  lemma {:induction false} OneGlobalNeverStrays(acts: seq<Action>, s: Text, g: Text)
    requires ApartRun(acts, s) && Exec(acts).value.names <= {g}
    ensures !Strayed(acts, s)
  {
    if acts != [] {
      var before, a := acts[..|acts| - 1], acts[|acts| - 1];
      var st := Exec(before).value;
      NamesKept(st, a) by { hide Enabled, Apply; }
      OneGlobalNeverStrays(before, s, g);
      if Completes(st, a, s) {
        RunTidy(before, s);
        RunNames(before);
        OwnerNamed(before, s);
        StrayNot(st, Runs.Locations(before), a, s, WhoOf(before, s), Owner(before, s), Stale(before, s),
                 Strayed(before, s), g) by { hide Tidy, Enabled, NamesOk; }
      }
    }
  }

  lemma NamesKept(st: State, a: Action)
    requires Enabled(st, a)
    ensures st.names <= Apply(st, a).names
  {
    hide Apply, Enabled, OfClient, OfCloser, SameClient, SameCloser;
    Footprint(st, a);
  }

  lemma StrayNot(st: State, loc: I.Map, a: Action, s: Text, who: Who, owner: Option<Text>, stale: set<Text>,
      strayed: bool,
                 g: Text)
    requires Enabled(st, a) && Completes(st, a, s) && Tidy(st, loc, s, who, owner, stale, strayed) && NamesOk(st)
    requires st.names <= {g} && OptionSet(owner) <= st.names
    ensures owner == Some(ClosedOn(st, a))
  {
    assert Closes(st, a.j, s);
    hide AliveOk, HandlerOk;
    assert who == ByCloser(a.j);
    assert owner.value in OptionSet(owner);
    assert ClosedOn(st, a) in st.names;
  }

  /** With one global process and handlers of the same session apart: a session without a handler under way is in
      exactly one of ALIVE and SWAPPED, and in ALIVE exactly if it is on the list of some process. */
  lemma AliveOrSwapped(acts: seq<Action>, st: State, g: Text, s: Text)
    requires ApartRun(acts, s) && Exec(acts) == Some(st) && st.names <= {g}
    requires Quiet(st, s) && s in st.history.created
    ensures (g, s) in st.alive <==> (g, s) !in st.swapped
    ensures (g, s) in st.alive <==> exists p :: p in st.tables.processes && s in st.tables.processes[p].sessions
  {
    hide Exec, I.Inv, Tidy, Quiet, NamesOk;
    OneGlobalNeverStrays(acts, s, g);
    RunTidy(acts, s);
    Runs.RunInv(acts);
    RunNames(acts);
    OwnerNamed(acts, s);
    OneGlobalSets(st, Runs.Locations(acts), s, WhoOf(acts, s), Owner(acts, s), Stale(acts, s), g);
  }

  lemma OneGlobalSets(st: State, loc: I.Map, s: Text, who: Who, owner: Option<Text>, stale: set<Text>, g: Text)
    requires I.Inv(st, loc) && Tidy(st, loc, s, who, owner, stale, false) && Quiet(st, s) && s in st.history.created
    requires NamesOk(st) && st.names <= {g} && OptionSet(owner) <= st.names
    ensures (g, s) in st.alive <==> (g, s) !in st.swapped
    ensures (g, s) in st.alive <==> OnAList(st, s)
  {
    hide I.Inv, Tidy, Quiet, OnAList, NamesOk;
    QuietPlace(st, loc, s);
    QuietEntries(st, loc, s, who, owner, stale, false);
    if loc[s].Swapped? {
      NamedG(st, loc[s].g, s);
    } else {
      assert owner.value in OptionSet(owner);
    }
  }

  lemma NamedG(st: State, g: Text, s: Text)
    requires NamesOk(st) && (g, s) in st.swapped
    ensures g in st.names
  {
    hide ClientNames, ProcessNames;
  }
}
