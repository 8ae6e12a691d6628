/** The joint invariant holds after every run. */
module Runs {
  import opened Bytes
  import opened SessionRecord
  import opened Tables
  import opened RuntimeSessions
  import opened Protocol
  import opened Invariant
  import opened Moves
  import opened Identification
  import StepPlaces
  import F = StepFlags
  import V = StepValues

  /** The parts of the invariant that more than one step proof looks at. */
  lemma Parts(st: State, loc: Map)
    requires Inv(st, loc)
    ensures ClientsOk(st.clients, loc) && ListsOk(st.tables.processes, loc) && SwappedOk(st.swapped, loc)
    ensures ClosersOk(st.closers, st.tables.processes, loc) && LinksOk(st.links, st.tables.processes, loc)
    ensures st.links.Keys == st.tables.processes.Keys && StagesOk(st.clients, st.links, st.tables.processes)
    ensures FlagsOk(st.tables.sessions, st.links, loc) && JobsOk(st.clients, st.tables.sessions)
    ensures CapacityOk(st.clients, st.tables.processes)
    ensures st.history.created.Keys == loc.Keys && IdsOk(st.history, st.tables.processes, st.names)
    ensures SessionsConfig(st.tables.sessions, st.history.created)
  {
    hide ClientsOk, ListsOk, SwappedOk, ClosersOk, LinksOk, StagesOk, FlagsOk, JobsOk, CapacityOk, IdsOk;
  }

  /** A fresh id names nothing yet. */
  lemma Fresh(st: State, loc: Map, id: Text)
    requires Inv(st, loc) && FreshUuid(st, id)
    ensures id !in loc && id !in st.tables.processes && id !in st.tables.sessions
  {
    hide ClientsOk, ListsOk, SwappedOk, ClosersOk, LinksOk, StagesOk, FlagsOk, JobsOk, CapacityOk;
    Parts(st, loc);
    if id in st.tables.sessions {
      V.SessionFact(st.tables.sessions, st.history.created, id);
    }
  }

  lemma CreateInv(st: State, loc: Map, i: nat, s: Text)
    requires Inv(st, loc) && CanCreate(st, i, s)
    ensures Inv(DoCreate(st, i, s), loc[s := Claimed(i)])
  {
    Fresh(st, loc, s) by { hide Places, Flags, Values; }
    hide Places, Flags, Values;
    StepPlaces.CreateKeeps(st, loc, i, s);
    F.CreateFlags(st, loc, i, s);
    V.CreateValues(st, loc, i, s);
  }

  lemma ClaimInv(st: State, loc: Map, i: nat)
    requires Inv(st, loc) && CanClaim(st, i)
    ensures Inv(DoClaim(st, i), Claiming(st, loc, i))
  {
    hide Places, Flags, Values;
    hide ClientsOk, ListsOk, SwappedOk, ClosersOk, LinksOk, StagesOk, FlagsOk, JobsOk, CapacityOk, IdsOk;
    Parts(st, loc);
    StepPlaces.ClaimKeeps(st, loc, i);
    F.ClaimFlags(st, loc, i);
    V.ClaimValues(st, loc, i);
  }

  lemma ReadRecordInv(st: State, loc: Map, i: nat)
    requires Inv(st, loc) && CanReadRecord(st, i)
    ensures Inv(DoReadRecord(st, i), loc)
  {
    hide Places, Flags, Values;
    hide ClientsOk, ListsOk, SwappedOk, ClosersOk, LinksOk, StagesOk, FlagsOk, JobsOk, CapacityOk, IdsOk, ParseRecord;
    Parts(st, loc);
    ClaimFact(st.clients, loc, i);
    F.ReadRecordFlags(st, loc, i);
    V.ReadRecordValues(st, loc, i);
    WonHasRecord(st, loc, i);
    StepPlaces.ClientOnly(st, loc, i, DoReadRecord(st, i).clients[i]);
  }

  lemma WonHasRecord(st: State, loc: Map, i: nat)
    requires Values(st, loc) && CanReadRecord(st, i) && st.clients[i].session in loc
    ensures st.clients[i].session in st.records
    ensures ParseRecord(st.records[st.clients[i].session], Config(0, 0)) == st.history.created[st.clients[i].session]
  {
    hide ParseRecord, PrintRecord;
    V.WonRecord(st, loc, i);
  }

  lemma ReserveInv(st: State, loc: Map, i: nat, p: Text)
    requires Inv(st, loc) && CanReserveFree(st, i, p)
    ensures Inv(DoReserveFree(st, i, p), loc)
  {
    hide Places, Flags, Values;
    StepPlaces.ReserveKeeps(st, loc, i, p);
    F.ReserveFlags(st, loc, i, p);
    V.ReserveValues(st, loc, i, p);
  }

  lemma FindNoFreeInv(st: State, loc: Map, i: nat)
    requires Inv(st, loc) && CanFindNoFree(st, i)
    ensures Inv(DoFindNoFree(st, i), loc)
  {
    hide Places, Flags, Values;
    StepPlaces.ClientOnly(st, loc, i, NoFree(st.clients[i].job));
    F.FindNoFreeFlags(st, loc, i);
    V.FindNoFreeValues(st, loc, i);
  }

  lemma AddProcessInv(st: State, loc: Map, i: nat, p: Text)
    requires Inv(st, loc) && CanAddProcess(st, i, p)
    ensures Inv(DoAddProcess(st, i, p), loc)
  {
    hide Places, Flags, Values;
    Fresh(st, loc, p);
    StepPlaces.AddProcessKeeps(st, loc, i, p);
    F.AddProcessFlags(st, loc, i, p);
    V.AddProcessValues(st, loc, i, p);
  }

  lemma PlaceInv(st: State, loc: Map, i: nat)
    requires Inv(st, loc) && CanPlace(st, i)
    ensures Inv(DoPlace(st, i), Placing(st, loc, i))
  {
    hide Places, Flags, Values;
    hide ClientsOk, ListsOk, SwappedOk, ClosersOk, LinksOk, StagesOk, FlagsOk, JobsOk, CapacityOk, IdsOk;
    Parts(st, loc);
    ClaimFact(st.clients, loc, i);
    forall q | q in st.tables.processes ensures st.clients[i].job.session !in st.tables.processes[q].sessions {
      ListFact(st.tables.processes, loc, q);
    }
    StepPlaces.PlaceKeeps(st, loc, i);
    F.PlaceFlags(st, loc, i);
    V.PlaceValues(st, loc, i);
  }

  /** A handler step that neither takes nor gives a session, a job or a place. */
  lemma PlainInv(st: State, loc: Map, i: nat, c: Client)
    requires Inv(st, loc) && !Claims(c) && (i in st.clients ==> !Claims(st.clients[i]))
    ensures Inv(SetClient(st, i, c), loc)
  {
    hide Places, Flags, Values;
    StepPlaces.ClientOnly(st, loc, i, c);
    F.ClientFlags(st, loc, i, c);
    V.ClientValues(st, loc, i, c);
  }

  lemma AttachInv(st: State, loc: Map, p: Text)
    requires Inv(st, loc) && CanAttach(st, p)
    ensures Inv(DoAttach(st, p), loc)
  {
    hide Places, Flags, Values;
    StepPlaces.AttachKeeps(st, loc, p);
    F.AttachFlags(st, loc, p);
    V.AttachValues(st, loc, p);
  }

  lemma IdentifyInv(st: State, loc: Map, p: Text)
    requires Inv(st, loc) && CanIdentify(st, p)
    ensures Inv(DoIdentify(st, p), Identifying(st, loc, p))
  {
    hide Places, Flags, Values;
    hide ClientsOk, ListsOk, SwappedOk, ClosersOk, LinksOk, StagesOk, FlagsOk, JobsOk, CapacityOk, IdsOk;
    hide NoDup, Identifying, Shift, RequestAll;
    Parts(st, loc);
    ListFact(st.tables.processes, loc, p);
    F.StagesFact(st.clients, st.links, st.tables.processes, p);
    IdentifyingShifts(st, loc, p);
    IdentifyKeeps(st, loc, p);
    F.IdentifyFlags(st, loc, p);
    V.IdentifyValues(st, loc, p);
  }

  lemma DrainInv(st: State, loc: Map, s: Text)
    requires Inv(st, loc)
    ensures Inv(DoDrain(st, s), loc)
  {
    hide Places, Flags, Values;
    StepPlaces.DrainKeeps(st, loc, s);
    F.DrainFlags(st, loc, s);
    V.DrainValues(st, loc, s);
  }

  /** Flags and values when link p changes and session s, which is on p, moves within it. */
  lemma LinkMove(st: State, loc: Map, p: Text, l: Link, s: Text, to: Loc)
    requires Flags(st, loc) && Values(SetLink(st, p, l), loc) && p in st.links && l.stage == st.links[p].stage
    requires On(loc, s, p) && !loc[s].phase.Waiting? && to.Listed? && to.p == p
    ensures Flags(SetLink(st, p, l), loc[s := to]) && Values(SetLink(st, p, l), loc[s := to])
  {
    hide Flags, Values;
    F.MoveFlags(st, loc, s, to);
    F.LinkFlags(st, loc[s := to], p, l);
    V.MoveValues(SetLink(st, p, l), loc, s, to);
  }

  lemma CreatedConfig(st: State, loc: Map, p: Text)
    requires Values(st, loc) && p in st.links
    ensures LinkConfig(st.links[p], st.history.created)
  {
    V.LinkConfigFact(st.links, st.history.created, p);
  }

  lemma AnnounceInv(st: State, loc: Map, p: Text)
    requires Inv(st, loc) && CanAnnounce(st, p)
    ensures Inv(DoAnnounce(st, p), loc)
  {
    hide Places, Flags, Values, LinkConfig;
    StepPlaces.AnnounceKeeps(st, loc, p);
    F.LinkFlags(st, loc, p, DoAnnounce(st, p).links[p]);
    StageConfig(st, loc, p);
    V.LinkValues(st, loc, p, DoAnnounce(st, p).links[p]);
  }

  lemma StageConfig(st: State, loc: Map, p: Text)
    requires Values(st, loc) && CanAnnounce(st, p)
    ensures LinkConfig(DoAnnounce(st, p).links[p], st.history.created)
  {
    CreatedConfig(st, loc, p) by { hide Values; }
  }

  lemma AllocateInv(st: State, loc: Map, p: Text, o: Outcome)
    requires Inv(st, loc) && CanAllocate(st, p, o)
    ensures Inv(DoAllocate(st, p, o), loc[st.tables.processes[p].sent[st.links[p].taken].session := Listed(p, Hosted)])
    ensures
      var l := st.links[p];
      !(|l.forks| >= AsSize(l.maxSessions)) && !Hosts(l.forks, st.tables.processes[p].sent[l.taken].session)
  {
    hide Places, Flags, Values;
    hide ClientsOk, ListsOk, SwappedOk, ClosersOk, LinksOk, StagesOk, FlagsOk, JobsOk, CapacityOk, IdsOk, LinkOk, Hosts;
    var l, sent := st.links[p], st.tables.processes[p].sent;
    Parts(st, loc);
    F.CapacityFact(st.clients, st.tables.processes, p);
    LinkFact(st.links, st.tables.processes, loc, p);
    ListFact(st.tables.processes, loc, p);
    PendingFact(p, l, sent, loc);
    AllocationSucceeds(p, l, sent, loc, st.tables.processes[p].sessions);
    StepPlaces.AllocateKeeps(st, loc, p, o);
    V.AllocateValues(st, loc, p, o);
    LinkMove(st, loc, p, DoAllocate(st, p, o).links[p], sent[l.taken].session, Listed(p, Hosted));
  }

  lemma ReplyInv(st: State, loc: Map, p: Text)
    requires Inv(st, loc) && CanReply(st, p)
    ensures Inv(DoReply(st, p), loc)
  {
    hide Places, Flags, Values, LinkConfig;
    hide LinkOk;
    StepPlaces.LinkOf(st, loc, p);
    ReplyStatus(p, st.links[p], st.tables.processes[p].sent, loc);
    CreatedConfig(st, loc, p);
    StepPlaces.ReplyKeeps(st, loc, p);
    F.LinkFlags(st, loc, p, DoReply(st, p).links[p]);
    V.ReplyConfig(st.links[p], st.history.created);
    V.LinkValues(st, loc, p, DoReply(st, p).links[p]);
  }

  lemma ReplyStatus(p: Text, l: Link, sent: seq<Request>, loc: Map)
    requires LinkOk(p, l, sent, loc) && l.reply.Some?
    ensures l.reply.value.Status?
  {
  }

  lemma DeleteInv(st: State, loc: Map, p: Text, pid: int32, swapping: bool)
    requires Inv(st, loc) && CanDelete(st, p, pid)
    ensures Inv(DoDelete(st, p, pid, swapping), Deleting(st, loc, p, pid))
  {
    hide Places, Flags, Values, LinkOk, LinkConfig, FindPid;
    var l := st.links[p];
    var k := FindPid(l.forks, pid);
    StepPlaces.DeleteKeeps(st, loc, p, pid, swapping);
    if k < |l.forks| {
      StepPlaces.LinkOf(st, loc, p);
      ForkFact(p, l, st.tables.processes[p].sent, loc, k);
      CreatedConfig(st, loc, p);
      V.DeleteConfig(l, st.history.created, k, swapping);
      V.LinkValues(st, loc, p, DoDelete(st, p, pid, swapping).links[p]);
      LinkMove(st, loc, p, DoDelete(st, p, pid, swapping).links[p], l.forks[k].session, Listed(p, Ending));
    }
  }

  lemma ReportInv(st: State, loc: Map, p: Text, c: Closure)
    requires Inv(st, loc) && CanReport(st, p, c)
    ensures Inv(DoReport(st, p, c), loc[c.session := Listed(p, Reported)])
  {
    hide Places, Flags, Values, LinkOk, LinkConfig;
    StepPlaces.ReportKeeps(st, loc, p, c);
    StepPlaces.LinkOf(st, loc, p);
    ClosingFact(p, st.links[p], st.tables.processes[p].sent, loc, c);
    CreatedConfig(st, loc, p);
    V.ReportConfig(st.links[p], st.history.created, c);
    V.LinkValues(st, loc, p, DoReport(st, p, c).links[p]);
    LinkMove(st, loc, p, DoReport(st, p, c).links[p], c.session, Listed(p, Reported));
  }

  lemma TakeInv(st: State, loc: Map, p: Text, j: nat)
    requires Inv(st, loc) && CanTake(st, p, j)
    ensures Inv(DoTake(st, p, j), Taking(st, loc, p, j))
  {
    hide Places, Flags, Values, LinkOk, LinkConfig;
    var l := st.links[p];
    var l' := l.(up := l.up[1..]);
    StepPlaces.TakeKeeps(st, loc, p, j);
    StepPlaces.LinkOf(st, loc, p);
    CreatedConfig(st, loc, p);
    V.TakeConfig(l, st.history.created);
    V.LinkValues(st, loc, p, l');
    if l.up[0].Closed? {
      UpFact(p, l, st.tables.processes[p].sent, loc);
      LinkMove(st, loc, p, l', l.up[0].closure.session, Listed(p, Taken(j)));
      CloserRest(SetLink(st, p, l'), Taking(st, loc, p, j), j, DoTake(st, p, j).closers[j]);
    } else {
      F.LinkFlags(st, loc, p, l');
    }
  }

  /** Flags and values do not look at closure handlers. */
  lemma CloserRest(st: State, loc: Map, j: nat, c: Closer)
    requires Flags(st, loc) && Values(st, loc)
    ensures Flags(SetCloser(st, j, c), loc) && Values(SetCloser(st, j, c), loc)
  {
    hide StagesOk, FlagsOk, JobsOk, CapacityOk, IdsOk;
    hide CreatedOk, JobsConfig, SessionsConfig, ProcsConfig, LinksConfig, RequestsOk, WinsOk, InvocationsOk;
  }

  lemma RemoveInv(st: State, loc: Map, j: nat)
    requires Inv(st, loc) && CanRemove(st, j)
    ensures Inv(DoRemove(st, j), loc[st.closers[j].session := Leaving(j)])
  {
    hide Places, Flags, Values;
    hide ClientsOk, ListsOk, SwappedOk, ClosersOk, LinksOk, StagesOk, FlagsOk, JobsOk, CapacityOk, IdsOk, NoDup,
      IndexOf;
    var s := st.closers[j].session;
    Parts(st, loc);
    CloserFact(st.closers, st.tables.processes, loc, j);
    ListFact(st.tables.processes, loc, st.closers[j].process);
    F.FlagsFact(st.tables.sessions, st.links, loc, s);
    StepPlaces.RemoveKeeps(st, loc, j);
    F.RemoveFlags(st, loc, j);
    V.RemoveValues(st, loc, j);
    V.MoveValues(DoRemove(st, j), loc, s, Leaving(j));
  }

  lemma CloserInv(st: State, loc: Map, j: nat, a: Action)
    requires Inv(st, loc) && (a == Unmark(j) || a == EraseAlive(j)) && Enabled(st, a)
    ensures Inv(Apply(st, a), loc)
  {
    hide Places, Flags, Values;
    if a == Unmark(j) {
      StepPlaces.UnmarkKeeps(st, loc, j);
    } else {
      StepPlaces.EraseKeeps(st, loc, j);
    }
    CloserRest(st, loc, j, Apply(st, a).closers[j]);
    AliveRest(SetCloser(st, j, Apply(st, a).closers[j]), loc, Apply(st, a).alive);
  }

  /** Nothing in the invariant looks at the ALIVE sets. */
  lemma AliveRest(st: State, loc: Map, alive: set<(Text, Text)>)
    requires Flags(st, loc) && Values(st, loc)
    ensures Flags(st.(alive := alive), loc) && Values(st.(alive := alive), loc)
  {
    hide StagesOk, FlagsOk, JobsOk, CapacityOk, IdsOk;
    hide CreatedOk, JobsConfig, SessionsConfig, ProcsConfig, LinksConfig, RequestsOk, WinsOk, InvocationsOk;
  }

  lemma MarkInv(st: State, loc: Map, i: nat)
    requires Inv(st, loc) && CanMarkAlive(st, i)
    ensures Inv(DoMarkAlive(st, i), loc)
  {
    var st1 := SetClient(st, i, Replied(200));
    assert Inv(st1, loc) by {
      hide Places, Flags, Values;
      PlainInv(st, loc, i, Replied(200));
    }
    hide ClientsOk, ListsOk, SwappedOk, ClosersOk, LinksOk, Flags, Values;
    AliveRest(st1, loc, DoMarkAlive(st, i).alive);
  }

  lemma ParkInv(st: State, loc: Map, j: nat)
    requires Inv(st, loc) && CanPark(st, j)
    ensures Inv(DoPark(st, j),
                loc[st.closers[j].session := Swapped(st.tables.processes[st.closers[j].process].globalId)])
  {
    hide Places, Flags, Values;
    hide ClientsOk, ListsOk, SwappedOk, ClosersOk, LinksOk, StagesOk, FlagsOk, JobsOk, CapacityOk, IdsOk;
    var s := st.closers[j].session;
    var to := Swapped(st.tables.processes[st.closers[j].process].globalId);
    Parts(st, loc);
    CloserFact(st.closers, st.tables.processes, loc, j);
    StepPlaces.ParkKeeps(st, loc, j);
    V.ParkValues(st, loc, j);
    F.MoveFlags(st, loc, s, to);
    ParkFlags(st, loc[s := to], j);
  }

  lemma ParkFlags(st: State, loc: Map, j: nat)
    requires Flags(st, loc) && CanPark(st, j)
    ensures Flags(DoPark(st, j), loc)
  {
    hide StagesOk, FlagsOk, JobsOk, CapacityOk;
  }

  lemma GlobalInv(st: State, loc: Map, g: Text)
    requires Inv(st, loc) && FreshUuid(st, g)
    ensures Inv(Apply(st, AddGlobal(g)), loc)
  {
    hide ClientsOk, ListsOk, SwappedOk, ClosersOk, LinksOk, StagesOk, FlagsOk, JobsOk, CapacityOk, Values;
    V.GlobalValues(st, loc, g);
  }

  predicate Allocates(a: Action) {
    a.ReserveFree? || a.FindNoFree? || a.AddProcess? || a.PlaceSession? || a.MarkAlive? || a.AddGlobal?
    || a.Begin? || a.Create? || a.CheckAlive? || a.Claim? || a.ReadRecord?
  }

  /** Every action keeps the invariant. */
  lemma Step(st: State, loc: Map, a: Action)
    requires Inv(st, loc) && Enabled(st, a)
    ensures Inv(Apply(st, a), NextLoc(st, loc, a))
  {
    hide Inv, Enabled, Apply, NextLoc;
    if Allocates(a) {
      AllocationStep(st, loc, a);
    } else {
      OtherStep(st, loc, a);
    }
  }

  lemma AllocationStep(st: State, loc: Map, a: Action)
    requires Inv(st, loc) && Enabled(st, a) && Allocates(a)
    ensures Inv(Apply(st, a), NextLoc(st, loc, a))
  {
    hide Inv, ParseRecord, Claims, FreshUuid, Placing, Place, Drops, HasRoom;
    match a
    case AddGlobal(g) => GlobalInv(st, loc, g);
    case Begin(i, g, s, c, inv) => BeginInv(st, loc, i, g, s, c, inv);
    case Create(i, s) => CreateInv(st, loc, i, s);
    case CheckAlive(i) => CheckInv(st, loc, i);
    case Claim(i) => ClaimInv(st, loc, i);
    case ReadRecord(i) => ReadRecordInv(st, loc, i);
    case ReserveFree(i, p) => ReserveInv(st, loc, i, p);
    case FindNoFree(i) => FindNoFreeInv(st, loc, i);
    case AddProcess(i, p) => AddProcessInv(st, loc, i, p);
    case PlaceSession(i) => PlaceInv(st, loc, i);
    case MarkAlive(i) => MarkInv(st, loc, i);
    case _ =>
  }

  lemma OtherStep(st: State, loc: Map, a: Action)
    requires Inv(st, loc) && Enabled(st, a) && !Allocates(a)
    ensures Inv(Apply(st, a), NextLoc(st, loc, a))
  {
    hide Inv, NoDup, Hosts, FindPid, RequestAll, Identifying, FreshUuid, Deleting, Taking, HasRoom, Allocate, Remove;
    match a
    case AttachProcess(p) => AttachInv(st, loc, p);
    case Identify(p) => IdentifyInv(st, loc, p);
    case DrainSession(s) => DrainInv(st, loc, s);
    case Take(p, j) => TakeInv(st, loc, p, j);
    case RemoveSession(j) => RemoveInv(st, loc, j);
    case Unmark(j) => CloserInv(st, loc, j, a);
    case Park(j) => ParkInv(st, loc, j);
    case EraseAlive(j) => CloserInv(st, loc, j, a);
    case Announce(p) => AnnounceInv(st, loc, p);
    case AllocateSession(p, o) => AllocateInv(st, loc, p, o);
    case Reply(p) => ReplyInv(st, loc, p);
    case DeleteSession(p, pid, swapping) => DeleteInv(st, loc, p, pid, swapping);
    case ReportClosure(p, c) => ReportInv(st, loc, p, c);
    case _ =>
  }

  lemma BeginInv(st: State, loc: Map, i: nat, g: Text, s: Text, c: Config, inv: Option<Invocation>)
    requires Inv(st, loc) && i !in st.clients
    ensures Inv(DoBegin(st, i, g, s, c, inv), loc)
  {
    hide Inv;
    PlainInv(st, loc, i, DoBegin(st, i, g, s, c, inv).clients[i]);
  }

  lemma CheckInv(st: State, loc: Map, i: nat)
    requires Inv(st, loc) && CanCheckAlive(st, i)
    ensures Inv(DoCheckAlive(st, i), loc)
  {
    hide Inv;
    PlainInv(st, loc, i, DoCheckAlive(st, i).clients[i]);
  }

  /** The location of every session after a run. */
  ghost function Locations(acts: seq<Action>): (loc': Map)
    requires Exec(acts).Some?
  {
    if acts == [] then map[]
    else
      var before := acts[..|acts| - 1];
      NextLoc(Exec(before).value, Locations(before), acts[|acts| - 1])
  }

  /** After every run, whatever the interleaving, the whole system is consistent. */
  lemma {:induction false} RunInv(acts: seq<Action>)
    requires Exec(acts).Some?
    ensures Inv(Exec(acts).value, Locations(acts))
  {
    hide Inv, Enabled, Apply, NextLoc;
    if acts == [] {
      InitOk();
    } else {
      var before := acts[..|acts| - 1];
      RunInv(before);
      Step(Exec(before).value, Locations(before), acts[|acts| - 1]);
    }
  }
}
