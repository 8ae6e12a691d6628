/** What the control plane and the runtime processes tell each other over a whole run: the requests that are
    written and the sizes in them, the messages that come back, and the sizes that closures report. */
module Exchange {
  import opened Bytes
  import opened SessionRecord
  import opened MemorySize
  import opened Tables
  import opened RuntimeSessions
  import opened Protocol
  import I = Invariant
  import Runs
  import Moves
  import Theorems
  import Identification
  import F = StepFlags
  import V = StepValues
  import Outcomes

  // ----- the sizes in allocation requests

  /** A session's entry has the configuration of its creation, the size negated if it was last placed to be restored;
      one that still waits for its first request was not. */
  ghost predicate EntryExact(s: Text, info: SessionInfo, created: map<Text, Config>) {
    && s in created && info.maxFunctions == created[s].maxFunctions
    && info.memory == (if info.swapIn then Outcomes.Opposite(created[s].memory) else created[s].memory)
    && (!info.isAllocated ==> !info.swapIn)
  }

  ghost predicate EntriesExact(sessions: map<Text, SessionInfo>, created: map<Text, Config>) {
    forall s :: s in sessions ==> EntryExact(s, sessions[s], created)
  }

  lemma PlacedEntry(acts: seq<Action>, st: State, i: nat)
    requires Exec(acts) == Some(st) && CanPlace(st, i) && EntriesExact(st.tables.sessions, st.history.created)
    ensures EntriesExact(DoPlace(st, i).tables.sessions, st.history.created)
  {
    hide Exec, DoPlace, Drops, Outcomes.Carries, Outcomes.JobFor;
    PlacedJob(acts, st, i);
    PlacedFirst(acts, st, i);
    Outcomes.PlacementIs(st, i);
    PlacedFlag(st, i);
  }

  /** The configuration of a job. */
  lemma PlacedJob(acts: seq<Action>, st: State, i: nat)
    requires Exec(acts) == Some(st) && CanPlace(st, i)
    ensures
      var (job, created) := (st.clients[i].job, st.history.created);
      && job.session in created && job.config.maxFunctions == created[job.session].maxFunctions
      && job.config.memory == (if job.swapIn then Outcomes.Opposite(created[job.session].memory)
                               else created[job.session].memory)
  {
    hide Exec, Outcomes.RequestOf;
    Outcomes.HandlerCarries(acts, st, i);
  }

  /** A session without an entry is new; one with an entry is restored and was asked for before. */
  lemma PlacedFirst(acts: seq<Action>, st: State, i: nat)
    requires Exec(acts) == Some(st) && CanPlace(st, i)
    ensures
      var job := st.clients[i].job;
      && (job.swapIn <==> job.session in st.tables.sessions)
      && (job.swapIn ==> st.tables.sessions[job.session].isAllocated)
  {
    hide Exec, I.Inv, I.ClientsOk, I.ListsOk, I.SwappedOk, I.ClosersOk, I.LinksOk, I.StagesOk, I.FlagsOk,
      I.JobsOk, I.CapacityOk, I.IdsOk, I.CreatedOk, I.JobsConfig, I.SessionsConfig, I.ProcsConfig,
      I.LinksConfig, I.RequestsOk, I.WinsOk, I.InvocationsOk;
    var loc := Theorems.Consistent(acts, st);
    Moves.ClaimFact(st.clients, loc, i);
    F.JobFact(st.clients, st.tables.sessions, i);
    if st.clients[i].job.session in st.tables.sessions {
      Theorems.ClaimedIsAllocated(st.tables.sessions, st.links, loc, st.clients[i].job.session);
    }
  }

  lemma PlacedFlag(st: State, i: nat)
    requires CanPlace(st, i)
    ensures
      var s := st.clients[i].job.session;
      && s in DoPlace(st, i).tables.sessions
      && (s in st.tables.sessions && st.tables.sessions[s].isAllocated ==>
            DoPlace(st, i).tables.sessions[s].isAllocated)
  {
    hide Drops, Submitted;
  }

  lemma {:induction false} AskedEntries(t: Tables, p: Text, list: seq<Text>, created: map<Text, Config>)
    requires p in t.processes && EntriesExact(t.sessions, created)
    ensures EntriesExact(RequestAll(t, p, list).sessions, created)
    decreases |list|
  {
    if list != [] {
      AskedEntries(RequestOne(t, p, list[0]), p, list[1..], created);
    }
  }

  lemma EntriesStep(acts: seq<Action>, st: State, a: Action)
    requires Exec(acts) == Some(st) && Enabled(st, a) && EntriesExact(st.tables.sessions, st.history.created)
    ensures EntriesExact(Apply(st, a).tables.sessions, Apply(st, a).history.created)
  {
    hide Exec, Enabled, Apply, EntriesExact;
    if a.PlaceSession? {
      PlaceApplies(st, a);
      PlacedEntry(acts, st, a.i);
    } else if a.Identify? {
      IdentifyEntries(st, a);
    } else if a.DrainSession? {
      DrainEntries(st, a);
    } else if a.Create? {
      CreateEntries(acts, st, a);
    } else {
      OtherEntries(st, a);
    }
  }

  lemma PlaceApplies(st: State, a: Action)
    requires a.PlaceSession? && Enabled(st, a)
    ensures CanPlace(st, a.i) && Apply(st, a) == DoPlace(st, a.i)
    ensures Apply(st, a).history.created == st.history.created
  {
    hide Place, Drops, Submitted;
  }

  lemma IdentifyEntries(st: State, a: Action)
    requires a.Identify? && Enabled(st, a) && EntriesExact(st.tables.sessions, st.history.created)
    ensures EntriesExact(Apply(st, a).tables.sessions, Apply(st, a).history.created)
  {
    hide EntriesExact, RequestAll;
    AskedEntries(st.tables, a.p, st.tables.processes[a.p].sessions, st.history.created);
  }

  lemma DrainEntries(st: State, a: Action)
    requires a.DrainSession? && EntriesExact(st.tables.sessions, st.history.created)
    ensures EntriesExact(Apply(st, a).tables.sessions, Apply(st, a).history.created)
  {
  }

  lemma CreateEntries(acts: seq<Action>, st: State, a: Action)
    requires Exec(acts) == Some(st) && a.Create? && Enabled(st, a)
    requires EntriesExact(st.tables.sessions, st.history.created)
    ensures EntriesExact(Apply(st, a).tables.sessions, Apply(st, a).history.created)
  {
    hide Exec, NulFree, PrintRecord;
    Outcomes.FreshIsNew(acts, st, a.s);
  }

  lemma OtherEntries(st: State, a: Action)
    requires !a.PlaceSession? && !a.Identify? && !a.DrainSession? && !a.Create? && Enabled(st, a)
    ensures Apply(st, a).tables.sessions == st.tables.sessions && Apply(st, a).history.created == st.history.created
  {
    hide Enabled, Apply;
    SessionsStay(st, a);
    CreatedStays(st, a);
  }

  lemma SessionsStay(st: State, a: Action)
    requires !a.PlaceSession? && !a.Identify? && !a.DrainSession? && !a.Create? && Enabled(st, a)
    ensures Apply(st, a).tables.sessions == st.tables.sessions
  {
    hide Enabled, Apply;
    if Outcomes.OfRuntime(a) {
      RuntimeTables(st, a);
    } else {
      HandlerSessions(st, a);
    }
  }

  lemma RuntimeTables(st: State, a: Action)
    requires Outcomes.OfRuntime(a) && Enabled(st, a)
    ensures Apply(st, a).tables == st.tables
  {
    hide Allocate, FindPid, Hosts;
  }

  lemma HandlerSessions(st: State, a: Action)
    requires !Outcomes.OfRuntime(a) && !a.PlaceSession? && !a.Identify? && !a.DrainSession? && !a.Create?
    requires Enabled(st, a)
    ensures Apply(st, a).tables.sessions == st.tables.sessions
  {
    hide FreshUuid, HasRoom, CanPlace, IndexOf, ParseRecord, NewProcess;
  }

  lemma CreatedStays(st: State, a: Action)
    requires !a.Create? && Enabled(st, a)
    ensures Apply(st, a).history.created == st.history.created
  {
    hide Enabled, Apply;
    if a.Begin? || a.ReadRecord? {
      HistoryStays(st, a);
    } else if Outcomes.Passes(a) {
      Outcomes.PassEffect(st, a);
    } else {
      Outcomes.OtherCarries(st, a);
    }
  }

  lemma HistoryStays(st: State, a: Action)
    requires (a.Begin? || a.ReadRecord?) && Enabled(st, a)
    ensures Apply(st, a).history == st.history
  {
    hide ParseRecord;
  }

  lemma {:induction false} RunEntries(acts: seq<Action>)
    requires Exec(acts).Some?
    ensures EntriesExact(Exec(acts).value.tables.sessions, Exec(acts).value.history.created)
  {
    hide Enabled, Apply;
    if acts != [] {
      var before := acts[..|acts| - 1];
      RunEntries(before);
      hide EntriesExact;
      EntriesStep(before, Exec(before).value, acts[|acts| - 1]);
    }
  }

  /** The requests written to p by an action, as they are meant: the one of a placement on a connected process, and
      those of the sessions that waited for p to identify itself, which are all new. */
  ghost function Written(acts: seq<Action>, st: State, a: Action, p: Text): (list: seq<Request>)
    requires Enabled(st, a)
  {
    if a.PlaceSession? && st.clients[a.i].process == p && st.clients[a.i].existing
       && st.tables.processes[p].connected then
      var s := st.clients[a.i].job.session;
      if s in st.history.created && Outcomes.RequestOf(acts, a.i).Some? then
        [if Outcomes.RequestOf(acts, a.i).value.s == [] then CreationRequest(st, s) else RestoreRequest(st, s)]
      else []
    else if a.Identify? && a.p == p then Awaited(st, st.tables.processes[p].sessions)
    else []
  }

  ghost function CreationRequest(st: State, s: Text): (r: Request)
    requires s in st.history.created
  {
    Request(s, st.history.created[s].maxFunctions, st.history.created[s].memory)
  }

  /** The size is negated: the segment is to be filled from storage. */
  ghost function RestoreRequest(st: State, s: Text): (r: Request)
    requires s in st.history.created
  {
    Request(s, st.history.created[s].maxFunctions, Outcomes.Opposite(st.history.created[s].memory))
  }

  ghost function Awaited(st: State, list: seq<Text>): (requests: seq<Request>) {
    if list == [] then []
    else
      (if list[0] in st.tables.sessions && !st.tables.sessions[list[0]].isAllocated && list[0] in st.history.created
       then [CreationRequest(st, list[0])] else [])
      + Awaited(st, list[1..])
  }

  function SentTo(t: Tables, p: Text): (sent: seq<Request>) {
    if p in t.processes then t.processes[p].sent else []
  }

  /** All requests that were ever meant for p. */
  ghost function WrittenTo(acts: seq<Action>, p: Text): (list: seq<Request>)
    requires Exec(acts).Some?
  {
    if acts == [] then []
    else
      var before := acts[..|acts| - 1];
      WrittenTo(before, p) + Written(before, Exec(before).value, acts[|acts| - 1], p)
  }

  lemma {:induction false} AwaitedIsPending(st: State, list: seq<Text>)
    requires EntriesExact(st.tables.sessions, st.history.created)
    ensures Identification.Pending(st.tables.sessions, list) == Awaited(st, list)
  {
    hide EntriesExact;
    if list != [] {
      AwaitedIsPending(st, list[1..]);
      if list[0] in st.tables.sessions {
        AwaitedEntry(st, list[0]);
      }
    }
  }

  lemma AwaitedEntry(st: State, s: Text)
    requires EntriesExact(st.tables.sessions, st.history.created) && s in st.tables.sessions
    ensures s in st.history.created
    ensures !st.tables.sessions[s].isAllocated ==>
      Identification.RequestFor(st.tables.sessions, s) == CreationRequest(st, s)
  {
  }

  lemma WrittenStep(acts: seq<Action>, st: State, a: Action, p: Text)
    requires Exec(acts) == Some(st) && Enabled(st, a)
    ensures SentTo(Apply(st, a).tables, p) == SentTo(st.tables, p) + Written(acts, st, a, p)
  {
    hide Exec, Enabled, Apply, Outcomes.RequestOf, Awaited;
    if a.PlaceSession? {
      PlaceApplies(st, a);
      PlaceWrites(acts, st, a, p);
    } else if a.Identify? {
      IdentifyWrites(acts, st, a, p);
    } else {
      OthersWrite(acts, st, a, p);
    }
  }

  lemma PlaceWrites(acts: seq<Action>, st: State, a: Action, p: Text)
    requires Exec(acts) == Some(st) && a.PlaceSession? && Enabled(st, a) && CanPlace(st, a.i)
    ensures SentTo(DoPlace(st, a.i).tables, p) == SentTo(st.tables, p) + Written(acts, st, a, p)
  {
    hide Exec, Enabled, Apply, Outcomes.RequestOf, DoPlace;
    Outcomes.HandlerCarries(acts, st, a.i);
    Outcomes.PlacementIs(st, a.i);
  }

  lemma IdentifyWrites(acts: seq<Action>, st: State, a: Action, p: Text)
    requires Exec(acts) == Some(st) && a.Identify? && Enabled(st, a)
    ensures SentTo(Apply(st, a).tables, p) == SentTo(st.tables, p) + Written(acts, st, a, p)
  {
    hide Exec, RequestAll, Identification.Pending, Awaited, EntriesExact;
    IdentifyOne(acts, st, a.p);
    RunEntries(acts);
    AwaitedIsPending(st, st.tables.processes[a.p].sessions);
  }

  lemma IdentifyOne(acts: seq<Action>, st: State, p: Text)
    requires Exec(acts) == Some(st) && CanIdentify(st, p)
    ensures
      var (t, pr) := (DoIdentify(st, p).tables, st.tables.processes[p]);
      && t.processes.Keys == st.tables.processes.Keys
      && t.processes[p].sent == pr.sent + Identification.Pending(st.tables.sessions, pr.sessions)
      && forall q :: q in st.tables.processes && q != p ==> t.processes[q] == st.tables.processes[q]
  {
    hide Exec, I.Inv, I.ClientsOk, I.ListsOk, I.SwappedOk, I.ClosersOk, I.LinksOk, I.StagesOk, I.FlagsOk,
      I.JobsOk, I.CapacityOk, I.IdsOk, I.CreatedOk, I.JobsConfig, I.SessionsConfig, I.ProcsConfig,
      I.LinksConfig, I.RequestsOk, I.WinsOk, I.InvocationsOk;
    var loc := Theorems.Consistent(acts, st);
    hide RequestAll, I.LinkOk, NoDup;
    Theorems.Linked(st, loc, p);
    Identification.RequestAllEffect(st.tables, p, st.tables.processes[p].sessions);
  }

  lemma OthersWrite(acts: seq<Action>, st: State, a: Action, p: Text)
    requires Exec(acts) == Some(st) && !a.PlaceSession? && !a.Identify? && Enabled(st, a)
    ensures SentTo(Apply(st, a).tables, p) == SentTo(st.tables, p) && Written(acts, st, a, p) == []
  {
    hide Exec, Enabled, Apply;
    if a.AddProcess? {
      AddedSent(acts, st, a, p);
    } else {
      SameSent(st, a, p);
    }
  }

  lemma AddedSent(acts: seq<Action>, st: State, a: Action, p: Text)
    requires Exec(acts) == Some(st) && a.AddProcess? && Enabled(st, a)
    ensures SentTo(Apply(st, a).tables, p) == SentTo(st.tables, p)
  {
    hide Exec, NulFree;
    Outcomes.FreshIsNew(acts, st, a.p);
  }

  lemma SameSent(st: State, a: Action, p: Text)
    requires !a.PlaceSession? && !a.Identify? && !a.AddProcess? && Enabled(st, a)
    ensures SentTo(Apply(st, a).tables, p) == SentTo(st.tables, p)
  {
    hide Enabled, Apply;
    if Outcomes.OfRuntime(a) {
      RuntimeTables(st, a);
    } else {
      HandlerSent(st, a, p);
    }
  }

  lemma HandlerSent(st: State, a: Action, p: Text)
    requires !Outcomes.OfRuntime(a) && !a.PlaceSession? && !a.Identify? && !a.AddProcess? && Enabled(st, a)
    ensures SentTo(Apply(st, a).tables, p) == SentTo(st.tables, p)
  {
    hide FreshUuid, HasRoom, CanPlace, IndexOf, ParseRecord, PrintRecord;
  }

  /** Over every run: the requests on a process's connection are those that its placements and its identification
      are meant to write, in order. Each has the functions and the size of the session's creation, and the size
      is negated exactly for a session that the caller named. */
  lemma {:induction false} RequestsExact(acts: seq<Action>, st: State, p: Text)
    requires Exec(acts) == Some(st)
    ensures SentTo(st.tables, p) == WrittenTo(acts, p)
  {
    hide Enabled, Apply, Written, SentTo;
    if acts == [] {
      NothingSent(p);
    } else {
      var before := acts[..|acts| - 1];
      RequestsExact(before, Exec(before).value, p);
      WrittenStep(before, Exec(before).value, acts[|acts| - 1], p);
    }
  }

  lemma NothingSent(p: Text)
    ensures SentTo(INIT.tables, p) == []
  {
  }

  /** For sizes of 1 to 2097151 kB the sign tells the two kinds apart. */
  lemma SignTells(st: State, s: Text)
    requires s in st.history.created && 1 <= st.history.created[s].memory <= 2097151
    ensures CreationRequest(st, s).memory > 0 && RestoreRequest(st, s).memory < 0
    ensures !SwapsIn(CreationRequest(st, s).memory) && SwapsIn(RestoreRequest(st, s).memory)
    ensures SegmentBytes(CreationRequest(st, s).memory) == SegmentBytes(RestoreRequest(st, s).memory)
      == st.history.created[s].memory * 1024
  {
    SizePreservedIff(st.history.created[s].memory);
    Outcomes.NegateIs(st.history.created[s].memory);
  }

  // ----- the messages that come back

  function UpOf(links: map<Text, Link>, p: Text): (up: seq<UpMessage>) {
    if p in links then links[p].up else []
  }

  /** What an action of p's runtime writes to its connection. */
  function Reported(st: State, a: Action, p: Text): (list: seq<UpMessage>)
    requires Enabled(st, a)
  {
    if a.Reply? && a.p == p then [st.links[p].reply.value]
    else if a.ReportClosure? && a.p == p then [UpMessage.Closed(a.closure)]
    else []
  }

  /** All messages that p ever wrote. */
  function ReportedBy(acts: seq<Action>, p: Text): (list: seq<UpMessage>)
    requires Exec(acts).Some?
  {
    if acts == [] then []
    else
      var before := acts[..|acts| - 1];
      ReportedBy(before, p) + Reported(Exec(before).value, acts[|acts| - 1], p)
  }

  /** What the control plane takes off the connection of p. */
  function TakenOff(st: State, a: Action, p: Text): (list: seq<UpMessage>)
    requires Enabled(st, a)
  {
    if a.Take? && a.p == p then [st.links[p].up[0]] else []
  }

  function TakenFrom(acts: seq<Action>, p: Text): (list: seq<UpMessage>)
    requires Exec(acts).Some?
  {
    if acts == [] then []
    else
      var before := acts[..|acts| - 1];
      TakenFrom(before, p) + TakenOff(Exec(before).value, acts[|acts| - 1], p)
  }

  lemma ChannelStep(acts: seq<Action>, st: State, a: Action, p: Text)
    requires Exec(acts) == Some(st) && Enabled(st, a)
    ensures TakenOff(st, a, p) + UpOf(Apply(st, a).links, p) == UpOf(st.links, p) + Reported(st, a, p)
  {
    hide Exec, Enabled, Apply;
    if a.Take? || a.Reply? || a.ReportClosure? {
      MessageStep(st, a, p);
    } else if a.AddProcess? {
      AddedLink(acts, st, a, p);
    } else {
      SameUp(st, a, p);
    }
  }

  lemma MessageStep(st: State, a: Action, p: Text)
    requires (a.Take? || a.Reply? || a.ReportClosure?) && Enabled(st, a)
    ensures TakenOff(st, a, p) + UpOf(Apply(st, a).links, p) == UpOf(st.links, p) + Reported(st, a, p)
  {
    hide Enabled, Apply;
    MessageChange(st, a);
  }

  lemma AddedLink(acts: seq<Action>, st: State, a: Action, p: Text)
    requires Exec(acts) == Some(st) && a.AddProcess? && Enabled(st, a)
    ensures UpOf(Apply(st, a).links, p) == UpOf(st.links, p)
    ensures p == a.p ==> p !in st.links
    ensures p != a.p ==> (p in st.links <==> p in Apply(st, a).links)
    ensures p != a.p && p in st.links ==> Apply(st, a).links[p] == st.links[p]
    ensures Apply(st, a).links[a.p] == Link(Unborn, 0, MAX_SESSIONS_PER_PROCESS, [], None, multiset{}, [])
  {
    hide Exec, NulFree;
    Outcomes.FreshIsNew(acts, st, a.p);
    Outcomes.Linked(acts, st);
  }

  /** The actions that change some link. */
  predicate OnLinks(a: Action) {
    a.AddProcess? || a.PlaceSession? || a.AttachProcess? || a.Identify? || a.Take? || a.Announce?
    || a.AllocateSession? || a.Reply? || a.DeleteSession? || a.ReportClosure?
  }

  lemma LinksStay(st: State, a: Action)
    requires !OnLinks(a) && Enabled(st, a)
    ensures Apply(st, a).links == st.links
  {
    hide FreshUuid, HasRoom, Remove, ParseRecord, PrintRecord, Reserve, Drain;
  }

  lemma SameUp(st: State, a: Action, p: Text)
    requires !a.Take? && !a.Reply? && !a.ReportClosure? && !a.AddProcess? && Enabled(st, a)
    ensures UpOf(Apply(st, a).links, p) == UpOf(st.links, p)
  {
    hide Enabled, Apply, UpOf;
    if OnLinks(a) {
      LinkUp(st, a, p);
    } else {
      LinksStay(st, a);
    }
  }

  lemma LinkUp(st: State, a: Action, p: Text)
    requires OnLinks(a) && !a.Take? && !a.Reply? && !a.ReportClosure? && !a.AddProcess? && Enabled(st, a)
    ensures UpOf(Apply(st, a).links, p) == UpOf(st.links, p)
  {
    hide Enabled, Apply;
    if OnStage(a) {
      StageChange(st, a);
    } else {
      ForkChange(st, a);
    }
  }

  // ----- what an action changes in its link

  predicate OnStage(a: Action) { a.PlaceSession? || a.AttachProcess? || a.Identify? || a.Announce? }

  function LinkOf(st: State, a: Action): (p: Text)
    requires Enabled(st, a) && OnLinks(a)
  {
    if a.PlaceSession? then st.clients[a.i].process else a.p
  }

  lemma StageChange(st: State, a: Action)
    requires OnStage(a) && Enabled(st, a)
    ensures
      var p := LinkOf(st, a);
      && p in st.links && p in Apply(st, a).links
      && Apply(st, a).links == st.links[p := st.links[p].(stage := Apply(st, a).links[p].stage)]
  {
    hide Place, RequestAll, Attach, Drops, Submitted;
  }

  lemma ForkChange(st: State, a: Action)
    requires (a.AllocateSession? || a.DeleteSession?) && Enabled(st, a)
    ensures a.p in st.links && a.p in Apply(st, a).links
    ensures
      var l, l' := st.links[a.p], Apply(st, a).links[a.p];
      && Apply(st, a).links == st.links[a.p := l'] && l'.up == l.up
      && (a.DeleteSession? ==> l'.taken == l.taken && l'.reply == l.reply)
      && (a.AllocateSession? ==> l'.closing == l.closing)
  {
    hide Allocate, FindPid, RemoveAt;
  }

  lemma MessageChange(st: State, a: Action)
    requires (a.Take? || a.Reply? || a.ReportClosure?) && Enabled(st, a)
    ensures a.p in st.links && a.p in Apply(st, a).links
    ensures
      var l, l' := st.links[a.p], Apply(st, a).links[a.p];
      && Apply(st, a).links == st.links[a.p := l'] && l'.taken == l.taken
      && match a
         case Take(_, _) => l'.closing == l.closing && l'.reply == l.reply && l.up != [] && l'.up == l.up[1..]
         case Reply(_) => l'.closing == l.closing && l.reply.Some? && l'.up == l.up + [l.reply.value]
         case _ => a.closure in l.closing && l'.reply == l.reply && l'.closing <= l.closing
                   && l'.up == l.up + [UpMessage.Closed(a.closure)]
  {
  }

  /** Over every run: messages arrive in the order in which they were written, none lost and none twice. */
  lemma {:induction false} ChannelKeepsOrder(acts: seq<Action>, st: State, p: Text)
    requires Exec(acts) == Some(st)
    ensures ReportedBy(acts, p) == TakenFrom(acts, p) + UpOf(st.links, p)
  {
    hide Enabled, Apply, UpOf, Reported, TakenOff;
    if acts == [] {
      NoLinks(p);
    } else {
      var before, a := acts[..|acts| - 1], acts[|acts| - 1];
      var st0 := Exec(before).value;
      ChannelKeepsOrder(before, st0, p);
      ChannelStep(before, st0, a, p);
      Reassociate(TakenFrom(before, p), UpOf(st0.links, p), Reported(st0, a, p), TakenOff(st0, a, p),
                  UpOf(st.links, p));
    }
  }

  lemma NoLinks(p: Text)
    ensures UpOf(INIT.links, p) == []
  {
  }

  lemma Reassociate<T>(a: seq<T>, b: seq<T>, c: seq<T>, d: seq<T>, e: seq<T>)
    requires d + e == b + c
    ensures a + b + c == a + d + e
  {
    assert a + b + c == a + (b + c);
    assert a + (d + e) == a + d + e;
  }

  /** The sessions of the statuses in a list of messages. */
  function Answered(list: seq<UpMessage>): (sessions: seq<Text>) {
    if list == [] then []
    else Answered(list[..|list| - 1]) + if list[|list| - 1].Status? then [list[|list| - 1].session] else []
  }

  function SessionsOf(requests: seq<Request>): (sessions: seq<Text>) {
    if requests == [] then [] else SessionsOf(requests[..|requests| - 1]) + [requests[|requests| - 1].session]
  }

  /** The request that is carried out but not answered yet. */
  function Unanswered(l: Link): (sessions: seq<Text>) {
    if l.reply.Some? && l.reply.value.Status? then [l.reply.value.session] else []
  }

  ghost predicate Answering(st: State, p: Text, list: seq<UpMessage>) {
    if p in st.links then
      && st.links[p].taken <= |SentTo(st.tables, p)|
      && Answered(list) + Unanswered(st.links[p]) == SessionsOf(SentTo(st.tables, p)[..st.links[p].taken])
    else list == []
  }

  lemma TakenWithin(acts: seq<Action>, st: State, p: Text)
    requires Exec(acts) == Some(st) && p in st.links
    ensures p in st.tables.processes && st.links[p].taken <= |st.tables.processes[p].sent|
    ensures st.links[p].reply.Some? ==> st.links[p].reply.value.Status?
  {
    hide Exec, I.Inv, I.ClientsOk, I.ListsOk, I.SwappedOk, I.ClosersOk, I.LinksOk, I.StagesOk, I.FlagsOk,
      I.JobsOk, I.CapacityOk, I.IdsOk, I.CreatedOk, I.JobsConfig, I.SessionsConfig, I.ProcsConfig,
      I.LinksConfig, I.RequestsOk, I.WinsOk, I.InvocationsOk;
    var loc := Theorems.Consistent(acts, st);
    Theorems.Linked(st, loc, p);
  }

  lemma AnsweredMore(list: seq<UpMessage>, m: UpMessage)
    ensures Answered(list + [m]) == Answered(list) + if m.Status? then [m.session] else []
  {
    assert (list + [m])[..|list + [m]| - 1] == list;
  }

  lemma SessionsMore(sent: seq<Request>, k: nat)
    requires k < |sent|
    ensures SessionsOf(sent[..k + 1]) == SessionsOf(sent[..k]) + [sent[k].session]
  {
    assert sent[..k + 1][..k] == sent[..k];
  }

  /** Reading and answering of requests. */
  lemma LinkKept(st: State, a: Action, p: Text)
    requires Enabled(st, a) && !a.AddProcess? && !a.AllocateSession? && !a.Reply?
    ensures p in st.links <==> p in Apply(st, a).links
    ensures p in st.links ==>
      && Apply(st, a).links[p].taken == st.links[p].taken && Apply(st, a).links[p].reply == st.links[p].reply
  {
    hide Enabled, Apply;
    if OnLinks(a) {
      LinkReading(st, a, p);
    } else {
      LinksStay(st, a);
    }
  }

  lemma LinkReading(st: State, a: Action, p: Text)
    requires OnLinks(a) && Enabled(st, a) && !a.AddProcess? && !a.AllocateSession? && !a.Reply?
    ensures p in st.links <==> p in Apply(st, a).links
    ensures p in st.links ==>
      && Apply(st, a).links[p].taken == st.links[p].taken && Apply(st, a).links[p].reply == st.links[p].reply
  {
    hide Enabled, Apply;
    if OnStage(a) {
      StageChange(st, a);
    } else if a.DeleteSession? {
      ForkChange(st, a);
    } else {
      MessageChange(st, a);
    }
  }

  lemma AnswerStep(acts: seq<Action>, st: State, a: Action, p: Text, list: seq<UpMessage>)
    requires Exec(acts) == Some(st) && Enabled(st, a) && Answering(st, p, list)
    ensures Answering(Apply(st, a), p, list + Reported(st, a, p))
  {
    hide Exec, Enabled, Apply, Answered, SessionsOf, SentTo, Reported, Written, Answering;
    WrittenStep(acts, st, a, p);
    if a.AllocateSession? {
      AllocateAnswers(acts, st, a, p, list);
    } else if a.Reply? {
      ReplyAnswers(acts, st, a, p, list);
    } else if a.AddProcess? {
      AddedLink(acts, st, a, p);
      AddedAnswers(acts, st, a, p, list);
    } else {
      LinkKept(st, a, p);
      if a.ReportClosure? {
        ReportLinked(st, a);
      }
      OtherAnswers(acts, st, a, p, list);
    }
  }

  lemma AllocateAnswers(acts: seq<Action>, st: State, a: Action, p: Text, list: seq<UpMessage>)
    requires Exec(acts) == Some(st) && a.AllocateSession? && Enabled(st, a) && Answering(st, p, list)
    ensures Answering(Apply(st, a), p, list + Reported(st, a, p))
  {
    hide Exec, Answered, SessionsOf, FindPid, Allocate;
    assert list + [] == list;
    if p == a.p {
      SessionsMore(SentTo(st.tables, p), st.links[p].taken);
      assert Answered(list) + [] == Answered(list);
    }
  }

  lemma ReplyAnswers(acts: seq<Action>, st: State, a: Action, p: Text, list: seq<UpMessage>)
    requires Exec(acts) == Some(st) && a.Reply? && Enabled(st, a) && Answering(st, p, list)
    ensures Answering(Apply(st, a), p, list + Reported(st, a, p))
  {
    hide Exec, Answered, SessionsOf;
    assert list + [] == list;
    if p == a.p {
      TakenWithin(acts, st, p);
      AnsweredMore(list, st.links[p].reply.value);
    }
  }

  lemma AddedAnswers(acts: seq<Action>, st: State, a: Action, p: Text, list: seq<UpMessage>)
    requires a.AddProcess? && Enabled(st, a) && Answering(st, p, list)
    requires SentTo(Apply(st, a).tables, p) == SentTo(st.tables, p) + Written(acts, st, a, p)
    requires p == a.p ==> p !in st.links
    requires p != a.p ==> (p in st.links <==> p in Apply(st, a).links)
    requires p != a.p && p in st.links ==> Apply(st, a).links[p] == st.links[p]
    requires Apply(st, a).links[a.p] == Link(Unborn, 0, MAX_SESSIONS_PER_PROCESS, [], None, multiset{}, [])
    ensures Answering(Apply(st, a), p, list + Reported(st, a, p))
  {
    hide Enabled, Apply, SentTo;
    InLinks(st, a);
    var sent := SentTo(Apply(st, a).tables, p);
    assert sent[..0] == [] && list + [] == list && SentTo(st.tables, p) + [] == SentTo(st.tables, p);
  }

  lemma InLinks(st: State, a: Action)
    requires a.AddProcess? && Enabled(st, a)
    ensures a.p in Apply(st, a).links
  {
    hide NulFree;
  }

  lemma OtherAnswers(acts: seq<Action>, st: State, a: Action, p: Text, list: seq<UpMessage>)
    requires Enabled(st, a) && !a.AddProcess? && !a.AllocateSession? && !a.Reply? && Answering(st, p, list)
    requires SentTo(Apply(st, a).tables, p) == SentTo(st.tables, p) + Written(acts, st, a, p)
    requires p in st.links <==> p in Apply(st, a).links
    requires p in st.links ==>
      && Apply(st, a).links[p].taken == st.links[p].taken && Apply(st, a).links[p].reply == st.links[p].reply
    requires !a.ReportClosure? || a.p != p || p in st.links
    ensures Answering(Apply(st, a), p, list + Reported(st, a, p))
  {
    hide Enabled, Apply, SentTo, Written, Answered, SessionsOf;
    assert list + [] == list;
    if a.ReportClosure? && a.p == p {
      AnsweredMore(list, UpMessage.Closed(a.closure));
    }
    if p in st.links {
      var k := st.links[p].taken;
      assert (SentTo(st.tables, p) + Written(acts, st, a, p))[..k] == SentTo(st.tables, p)[..k];
    }
  }

  lemma ReportLinked(st: State, a: Action)
    requires a.ReportClosure? && Enabled(st, a)
    ensures a.p in st.links
  {
  }

  lemma {:induction false} RunAnswers(acts: seq<Action>, p: Text)
    requires Exec(acts).Some?
    ensures Answering(Exec(acts).value, p, ReportedBy(acts, p))
  {
    hide Enabled, Apply, Answering, Reported;
    if acts == [] {
      NothingAnswered(p);
    } else {
      var before := acts[..|acts| - 1];
      RunAnswers(before, p);
      AnswerStep(before, Exec(before).value, acts[|acts| - 1], p, ReportedBy(before, p));
    }
  }

  lemma NothingAnswered(p: Text)
    ensures Answering(INIT, p, [])
  {
  }

  /** Over every run: the statuses that a process wrote, and the one it is about to write, answer the requests it has
      read, each once and in order. */
  lemma EveryRequestAnswered(acts: seq<Action>, st: State, p: Text)
    requires Exec(acts) == Some(st) && p in st.links
    ensures st.links[p].taken <= |SentTo(st.tables, p)|
    ensures Answered(ReportedBy(acts, p)) + Unanswered(st.links[p])
      == SessionsOf(SentTo(st.tables, p)[..st.links[p].taken])
  {
    hide Exec, SentTo, Answered, Unanswered, SessionsOf;
    RunAnswers(acts, p);
  }

  // ----- the sizes in closures

  /** Without swapping a closure reports 0; with it, for creation sizes of 1 to 2097151 kB, that size in bytes. */
  ghost predicate SizeExact(c: Closure, created: map<Text, Config>, swapping: bool) {
    && c.session in created
    && (!swapping ==> c.bytes == 0)
    && (swapping && 1 <= created[c.session].memory <= 2097151 ==> c.bytes == created[c.session].memory * 1024)
  }

  /** After any run: the end of a child takes its entry off the list and adds one closure, of that entry's session,
      and nothing else. */
  lemma DeletionReports(acts: seq<Action>, st: State, p: Text, pid: int32, swapping: bool)
    requires Exec(acts) == Some(st) && CanDelete(st, p, pid) && FindPid(st.links[p].forks, pid) < |st.links[p].forks|
    ensures
      var l := st.links[p];
      var k := FindPid(l.forks, pid);
      var l' := Apply(st, DeleteSession(p, pid, swapping)).links[p];
      && l'.forks == l.forks[..k] + l.forks[k + 1..] && l'.up == l.up && l'.reply == l.reply
      && exists c :: (&& l'.closing == l.closing + multiset{c} && c.session == l.forks[k].session
                      && SizeExact(c, st.history.created, swapping))
  {
    hide Exec, FindPid;
    var l := st.links[p];
    var k := FindPid(l.forks, pid);
    Theorems.SegmentsKeepTheirSize(acts, st, p);
    var c := Closing(l.forks[k], swapping);
    assert SizeExact(c, st.history.created, swapping);
    assert Apply(st, DeleteSession(p, pid, swapping)).links[p].closing == l.closing + multiset{c};
  }

  ghost predicate SizesExact(l: Link, created: map<Text, Config>, swapping: bool) {
    && (forall c :: c in l.closing ==> SizeExact(c, created, swapping))
    && (forall k :: 0 <= k < |l.up| && l.up[k].Closed? ==> SizeExact(l.up[k].closure, created, swapping))
  }

  ghost predicate ProcessExact(st: State, p: Text, swapping: bool) {
    p in st.links ==> SizesExact(st.links[p], st.history.created, swapping)
  }

  lemma ExactStep(acts: seq<Action>, st: State, a: Action, p: Text, swapping: bool)
    requires Exec(acts) == Some(st) && Enabled(st, a) && ProcessExact(st, p, swapping)
    requires a.DeleteSession? && a.p == p ==> a.swapping == swapping
    ensures ProcessExact(Apply(st, a), p, swapping)
  {
    hide Exec, Enabled, Apply, ProcessExact;
    if a.DeleteSession? {
      DeleteExact(acts, st, a, p, swapping);
    } else if a.Create? {
      CreateExact(acts, st, a, p, swapping);
    } else if a.AddProcess? {
      AddedLink(acts, st, a, p);
      CreatedStays(st, a);
      AddedExact(st, a, p, swapping);
    } else if OnLinks(a) {
      if p in st.links {
        TakenWithin(acts, st, p);
      }
      LinkExact(st, a, p, swapping);
    } else {
      LinksStay(st, a);
      CreatedStays(st, a);
      SameExact(st, a, p, swapping);
    }
  }

  lemma DeleteExact(acts: seq<Action>, st: State, a: Action, p: Text, swapping: bool)
    requires Exec(acts) == Some(st) && a.DeleteSession? && Enabled(st, a) && ProcessExact(st, p, swapping)
    requires a.p == p ==> a.swapping == swapping
    ensures ProcessExact(Apply(st, a), p, swapping)
  {
    hide Exec, Enabled, Apply, FindPid, SizeExact, Closing;
    ForkChange(st, a);
    CreatedStays(st, a);
    if a.p == p {
      DeleteOwn(acts, st, a, swapping);
    }
  }

  lemma DeleteOwn(acts: seq<Action>, st: State, a: Action, swapping: bool)
    requires Exec(acts) == Some(st) && a.DeleteSession? && a.swapping == swapping && Enabled(st, a) && a.p in st.links
    ensures a.p in Apply(st, a).links
    ensures forall c :: c in Apply(st, a).links[a.p].closing ==>
      c in st.links[a.p].closing || SizeExact(c, st.history.created, swapping)
  {
    hide Exec, FindPid, SizeExact, Closing;
    if FindPid(st.links[a.p].forks, a.pid) < |st.links[a.p].forks| {
      DeletionReports(acts, st, a.p, a.pid, swapping);
    }
  }

  lemma CreateExact(acts: seq<Action>, st: State, a: Action, p: Text, swapping: bool)
    requires Exec(acts) == Some(st) && a.Create? && Enabled(st, a) && ProcessExact(st, p, swapping)
    ensures ProcessExact(Apply(st, a), p, swapping)
  {
    hide Exec, NulFree, PrintRecord;
    Outcomes.FreshIsNew(acts, st, a.s);
  }

  lemma AddedExact(st: State, a: Action, p: Text, swapping: bool)
    requires a.AddProcess? && Enabled(st, a) && ProcessExact(st, p, swapping)
    requires p != a.p ==> (p in st.links <==> p in Apply(st, a).links)
    requires p != a.p && p in st.links ==> Apply(st, a).links[p] == st.links[p]
    requires Apply(st, a).links[a.p] == Link(Unborn, 0, MAX_SESSIONS_PER_PROCESS, [], None, multiset{}, [])
    requires Apply(st, a).history.created == st.history.created
    ensures ProcessExact(Apply(st, a), p, swapping)
  {
    hide Enabled, Apply, SizeExact;
  }

  lemma SameExact(st: State, a: Action, p: Text, swapping: bool)
    requires Enabled(st, a) && ProcessExact(st, p, swapping)
    requires Apply(st, a).links == st.links && Apply(st, a).history.created == st.history.created
    ensures ProcessExact(Apply(st, a), p, swapping)
  {
    hide Enabled, Apply, SizesExact;
  }

  lemma LinkExact(st: State, a: Action, p: Text, swapping: bool)
    requires OnLinks(a) && !a.DeleteSession? && !a.AddProcess? && Enabled(st, a) && ProcessExact(st, p, swapping)
    requires p in st.links && st.links[p].reply.Some? ==> st.links[p].reply.value.Status?
    ensures ProcessExact(Apply(st, a), p, swapping)
  {
    hide Enabled, Apply, SizesExact;
    CreatedStays(st, a);
    if OnStage(a) {
      StageChange(st, a);
      StageSizes(st, a, p, swapping);
    } else if a.AllocateSession? {
      ForkChange(st, a);
      StageSizes(st, a, p, swapping);
    } else {
      MessageChange(st, a);
      MessageSizes(st, a, p, swapping);
    }
  }

  lemma StageSizes(st: State, a: Action, p: Text, swapping: bool)
    requires Enabled(st, a) && ProcessExact(st, p, swapping)
    requires Apply(st, a).history.created == st.history.created && (p in Apply(st, a).links ==> p in st.links)
    requires p in Apply(st, a).links ==>
      Apply(st, a).links[p].closing == st.links[p].closing && Apply(st, a).links[p].up == st.links[p].up
    ensures ProcessExact(Apply(st, a), p, swapping)
  {
    hide Enabled, Apply, SizeExact;
  }

  lemma MessageSizes(st: State, a: Action, p: Text, swapping: bool)
    requires Enabled(st, a) && ProcessExact(st, p, swapping) && (a.Take? || a.Reply? || a.ReportClosure?)
    requires p in st.links && st.links[p].reply.Some? ==> st.links[p].reply.value.Status?
    requires Apply(st, a).history.created == st.history.created && a.p in st.links && a.p in Apply(st, a).links
    requires
      var l, l' := st.links[a.p], Apply(st, a).links[a.p];
      && Apply(st, a).links == st.links[a.p := l']
      && match a
         case Take(_, _) => l'.closing == l.closing && l.up != [] && l'.up == l.up[1..]
         case Reply(_) => l'.closing == l.closing && l.reply.Some? && l'.up == l.up + [l.reply.value]
         case _ => a.closure in l.closing && l'.closing <= l.closing
                   && l'.up == l.up + [UpMessage.Closed(a.closure)]
    ensures ProcessExact(Apply(st, a), p, swapping)
  {
    hide Enabled, Apply, SizeExact;
  }

  lemma {:induction false} RunExact(acts: seq<Action>, p: Text, swapping: bool)
    requires Exec(acts).Some?
    requires forall a :: a in acts && a.DeleteSession? && a.p == p ==> a.swapping == swapping
    ensures ProcessExact(Exec(acts).value, p, swapping)
  {
    hide Enabled, Apply, SizesExact;
    if acts != [] {
      var before := acts[..|acts| - 1];
      RunExact(before, p, swapping);
      hide ProcessExact;
      ExactStep(before, Exec(before).value, acts[|acts| - 1], p, swapping);
    }
  }

  /** Over every run: a process with swapping disabled reports 0 for every session that ends, and one with swapping
      enabled reports, for creation sizes of 1 to 2097151 kB, that size in bytes. */
  lemma ClosuresExact(acts: seq<Action>, st: State, p: Text, swapping: bool)
    requires Exec(acts) == Some(st) && p in st.links
    requires forall a :: a in acts && a.DeleteSession? && a.p == p ==> a.swapping == swapping
    ensures forall c :: c in st.links[p].closing ==> SizeExact(c, st.history.created, swapping)
    ensures forall k :: 0 <= k < |st.links[p].up| && st.links[p].up[k].Closed? ==>
      SizeExact(st.links[p].up[k].closure, st.history.created, swapping)
  {
    hide Exec, SizeExact;
    RunExact(acts, p, swapping);
  }
}
