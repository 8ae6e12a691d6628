/** What the joint invariant means: statements about the state after any run, with no mention of the
    auxiliary location of a session. */
module Theorems {
  import opened Bytes
  import opened SessionRecord
  import opened MemorySize
  import opened Tables
  import opened RuntimeSessions
  import opened Protocol
  import I = Invariant
  import Runs
  import Moves
  import Identification
  import V = StepValues
  import F = StepFlags

  /** The joint invariant of a reachable state, part by part. */
  lemma Consistent(acts: seq<Action>, st: State) returns (loc: I.Map)
    requires Exec(acts) == Some(st)
    ensures I.Inv(st, loc)
    ensures I.ClientsOk(st.clients, loc) && I.ListsOk(st.tables.processes, loc) && I.SwappedOk(st.swapped, loc)
    ensures I.ClosersOk(st.closers, st.tables.processes, loc) && I.LinksOk(st.links, st.tables.processes, loc)
    ensures st.links.Keys == st.tables.processes.Keys && I.StagesOk(st.clients, st.links, st.tables.processes)
    ensures I.FlagsOk(st.tables.sessions, st.links, loc) && I.JobsOk(st.clients, st.tables.sessions)
    ensures I.CapacityOk(st.clients, st.tables.processes)
    ensures st.history.created.Keys == loc.Keys && I.IdsOk(st.history, st.tables.processes, st.names)
    ensures I.WinsOk(st.history, loc) && I.RequestsOk(st.tables, st.history) && I.InvocationsOk(st.tables, st.history)
    ensures I.CreatedOk(st.history.created, st.records, loc) && I.LinksConfig(st.links, st.history.created)
    ensures I.JobsConfig(st.clients, st.history.created) && I.SessionsConfig(st.tables.sessions, st.history.created)
    ensures I.ProcsConfig(st.tables.processes, st.history.created)
  {
    hide Exec, I.ClientsOk, I.ListsOk, I.SwappedOk, I.ClosersOk, I.LinksOk, I.StagesOk, I.FlagsOk, I.JobsOk,
      I.CapacityOk, I.IdsOk, I.CreatedOk, I.JobsConfig, I.SessionsConfig, I.ProcsConfig, I.LinksConfig,
      I.RequestsOk, I.WinsOk, I.InvocationsOk;
    hide I.Inv;
    Runs.RunInv(acts);
    loc := Runs.Locations(acts);
    Runs.Parts(st, loc);
    ValueParts(st, loc);
  }

  lemma ValueParts(st: State, loc: I.Map)
    requires I.Inv(st, loc)
    ensures I.WinsOk(st.history, loc) && I.RequestsOk(st.tables, st.history) && I.InvocationsOk(st.tables, st.history)
    ensures I.CreatedOk(st.history.created, st.records, loc) && I.LinksConfig(st.links, st.history.created)
    ensures I.JobsConfig(st.clients, st.history.created) && I.SessionsConfig(st.tables.sessions, st.history.created)
    ensures I.ProcsConfig(st.tables.processes, st.history.created)
  {
    hide I.ClientsOk, I.ListsOk, I.SwappedOk, I.ClosersOk, I.LinksOk, I.StagesOk, I.FlagsOk, I.JobsOk,
      I.CapacityOk, I.IdsOk, I.CreatedOk, I.JobsConfig, I.SessionsConfig, I.ProcsConfig, I.LinksConfig,
      I.RequestsOk, I.WinsOk, I.InvocationsOk;
  }

  // ----- a runtime process never refuses

  /** Where a runtime process, or the way to and from it, mentions a session. */
  datatype Trace =
    | InRequest(k: nat)
    | InFork(k: nat)
    | InClosing(c: Closure)
    | InUp(k: nat)
    | InCloser(j: nat)

  predicate Mentions(st: State, p: Text, s: Text, w: Trace)
    requires p in st.links && p in st.tables.processes
  {
    var l, sent := st.links[p], st.tables.processes[p].sent;
    match w
    case InRequest(k) => l.taken <= k < |sent| && sent[k].session == s
    case InFork(k) => k < |l.forks| && l.forks[k].session == s
    case InClosing(c) => c in l.closing && c.session == s
    case InUp(k) => k < |l.up| && l.up[k].Closed? && l.up[k].closure.session == s
    case InCloser(j) => j in st.closers && st.closers[j] == Received(p, s)
  }

  lemma MentionPhase(st: State, loc: I.Map, p: Text, s: Text, w: Trace)
    requires p in st.links && p in st.tables.processes && Mentions(st, p, s, w)
    requires I.LinkOk(p, st.links[p], st.tables.processes[p].sent, loc)
    requires I.ClosersOk(st.closers, st.tables.processes, loc)
    ensures I.On(loc, s, p)
    ensures loc[s].phase ==
      match w
      case InRequest(_) => I.Phase.Asked
      case InFork(_) => I.Hosted
      case InClosing(_) => I.Ending
      case InUp(_) => I.Reported
      case InCloser(j) => I.Taken(j)
  {
  }

  /** Hosted sessions, requests on their way and closures on their way back exclude each other, each occurs
      once, and all are on the control plane's list of at most max_sessions. */
  lemma TracesDisjoint(acts: seq<Action>, st: State, p: Text)
    requires Exec(acts) == Some(st) && p in st.links
    ensures p in st.tables.processes
    ensures NoDup(st.tables.processes[p].sessions)
    ensures |st.tables.processes[p].sessions| <= st.links[p].maxSessions == st.tables.processes[p].maxSessions
    ensures forall s, w :: Mentions(st, p, s, w) ==> s in st.tables.processes[p].sessions
    ensures forall s, v, w :: Mentions(st, p, s, v) && Mentions(st, p, s, w) ==> v == w
    ensures forall c :: c in st.links[p].closing ==> st.links[p].closing[c] == 1
  {
    hide Exec, I.Inv, I.ClientsOk, I.ListsOk, I.SwappedOk, I.ClosersOk, I.LinksOk, I.StagesOk, I.FlagsOk,
      I.JobsOk, I.CapacityOk, I.IdsOk, I.CreatedOk, I.JobsConfig, I.SessionsConfig, I.ProcsConfig,
      I.LinksConfig, I.RequestsOk, I.WinsOk, I.InvocationsOk;
    var loc := Consistent(acts, st);
    Linked(st, loc, p);
    forall s, w | Mentions(st, p, s, w) ensures s in st.tables.processes[p].sessions {
      MentionPhase(st, loc, p, s, w);
    }
    forall s, v, w | Mentions(st, p, s, v) && Mentions(st, p, s, w) ensures v == w {
      MentionPhase(st, loc, p, s, v);
      MentionPhase(st, loc, p, s, w);
      SamePhase(st, loc, p, s, v, w);
    }
  }

  lemma SamePhase(st: State, loc: I.Map, p: Text, s: Text, v: Trace, w: Trace)
    requires p in st.links && p in st.tables.processes
    requires I.LinkOk(p, st.links[p], st.tables.processes[p].sent, loc)
    requires Mentions(st, p, s, v) && Mentions(st, p, s, w)
    requires match v case InRequest(_) => w.InRequest? case InFork(_) => w.InFork? case InClosing(_) => w.InClosing?
                     case InUp(_) => w.InUp? case InCloser(j) => w == v
    ensures v == w
  {
  }

  lemma Linked(st: State, loc: I.Map, p: Text)
    requires I.Inv(st, loc) && p in st.links
    ensures p in st.tables.processes
    ensures I.LinkOk(p, st.links[p], st.tables.processes[p].sent, loc)
    ensures I.ClosersOk(st.closers, st.tables.processes, loc)
    ensures NoDup(st.tables.processes[p].sessions)
    ensures forall s :: s in st.tables.processes[p].sessions <==> I.On(loc, s, p)
    ensures st.tables.processes[p].maxSessions == MAX_SESSIONS_PER_PROCESS == st.links[p].maxSessions
    ensures |st.tables.processes[p].sessions| <= MAX_SESSIONS_PER_PROCESS
    ensures I.Connects(st.links[p], st.tables.processes[p])
    ensures forall c :: c in st.links[p].closing ==> st.links[p].closing[c] == 1
  {
    assert I.Places(st, loc) && I.Flags(st, loc);
    hide I.ClientsOk, I.ListsOk, I.SwappedOk, I.StagesOk, I.FlagsOk, I.JobsOk, I.CapacityOk, I.Values,
      I.LinksOk, NoDup;
    Moves.LinkFact(st.links, st.tables.processes, loc, p);
    Moves.ListFact(st.tables.processes, loc, p);
    F.CapacityFact(st.clients, st.tables.processes, p);
    F.StagesFact(st.clients, st.links, st.tables.processes, p);
  }

  /** In every run, every request is granted: the new entry is appended, and the status is never
      NO_MORE_CAPACITY or SESSION_CONFLICT. */
  lemma NeverRefused(acts: seq<Action>, st: State, p: Text, o: Outcome)
    requires Exec(acts) == Some(st) && CanAllocate(st, p, o)
    ensures
      var r := st.tables.processes[p].sent[st.links[p].taken];
      var l := DoAllocate(st, p, o).links[p];
      && l.forks == st.links[p].forks + [Forked(r, o)]
      && l.reply == Some(Status(r.session, if o.NoMemory? then UNKNOWN_FAILURE else SUCCESS))
  {
    hide Exec, I.Inv, I.ClientsOk, I.ListsOk, I.SwappedOk, I.ClosersOk, I.LinksOk, I.StagesOk, I.FlagsOk,
      I.JobsOk, I.CapacityOk, I.IdsOk, I.CreatedOk, I.JobsConfig, I.SessionsConfig, I.ProcsConfig,
      I.LinksConfig, I.RequestsOk, I.WinsOk, I.InvocationsOk;
    var loc := Consistent(acts, st);
    hide Hosts;
    Runs.AllocateInv(st, loc, p, o);
  }

  lemma NoRefusalOnTheWire(acts: seq<Action>, st: State, p: Text, k: nat)
    requires Exec(acts) == Some(st) && p in st.links && k < |st.links[p].up| && st.links[p].up[k].Status?
    ensures st.links[p].up[k].code != NO_MORE_CAPACITY && st.links[p].up[k].code != SESSION_CONFLICT
  {
    hide Exec, I.Inv, I.ClientsOk, I.ListsOk, I.SwappedOk, I.ClosersOk, I.LinksOk, I.StagesOk, I.FlagsOk,
      I.JobsOk, I.CapacityOk, I.IdsOk, I.CreatedOk, I.JobsConfig, I.SessionsConfig, I.ProcsConfig,
      I.LinksConfig, I.RequestsOk, I.WinsOk, I.InvocationsOk;
    var loc := Consistent(acts, st);
    Linked(st, loc, p);
    assert I.Allowed(st.links[p].up[k]);
  }

  // ----- every session is in exactly one place

  datatype Place =
    | ByClient(i: nat)
    | OnList(p: Text, k: nat)
    | InSwapped(g: Text)
    | ByCloser(j: nat)

  /** Won and not placed yet; listed; swapped; or between removal and sadd. */
  predicate IsAt(st: State, s: Text, w: Place) {
    match w
    case ByClient(i) => i in st.clients && I.Claims(st.clients[i]) && I.ClaimOf(st.clients[i]) == s
    case OnList(p, k) =>
      && p in st.tables.processes && k < |st.tables.processes[p].sessions|
      && st.tables.processes[p].sessions[k] == s
    case InSwapped(g) => (g, s) in st.swapped
    case ByCloser(j) => j in st.closers && I.Holds(st.closers[j]) && st.closers[j].session == s
  }

  lemma PlaceIs(st: State, loc: I.Map, s: Text, w: Place)
    requires I.ClientsOk(st.clients, loc) && I.ListsOk(st.tables.processes, loc) && I.SwappedOk(st.swapped, loc)
    requires I.ClosersOk(st.closers, st.tables.processes, loc) && IsAt(st, s, w)
    ensures s in loc
    ensures match w case ByClient(i) => loc[s] == I.Claimed(i) case OnList(p, _) => loc[s].Listed? && loc[s].p == p
                    case InSwapped(g) => loc[s] == I.Swapped(g) case ByCloser(j) => loc[s] == I.Leaving(j)
  {
    if w.OnList? {
      assert s in st.tables.processes[w.p].sessions;
    }
  }

  /** Conservation: after every run every session ever created is in exactly one place, once. */
  lemma Conservation(acts: seq<Action>, st: State, s: Text)
    requires Exec(acts) == Some(st) && s in st.history.created
    ensures exists w :: IsAt(st, s, w)
    ensures forall v, w :: IsAt(st, s, v) && IsAt(st, s, w) ==> v == w
  {
    hide Exec, I.Inv, I.ClientsOk, I.ListsOk, I.SwappedOk, I.ClosersOk, I.LinksOk, I.StagesOk, I.FlagsOk,
      I.JobsOk, I.CapacityOk, I.IdsOk, I.CreatedOk, I.JobsConfig, I.SessionsConfig, I.ProcsConfig,
      I.LinksConfig, I.RequestsOk, I.WinsOk, I.InvocationsOk;
    var loc := Consistent(acts, st);
    PlaceExists(st, loc, s);
    forall v, w | IsAt(st, s, v) && IsAt(st, s, w) ensures v == w {
      PlaceIs(st, loc, s, v);
      PlaceIs(st, loc, s, w);
      if v.OnList? {
        Moves.ListFact(st.tables.processes, loc, v.p);
      }
    }
  }

  lemma PlaceExists(st: State, loc: I.Map, s: Text)
    requires I.ClientsOk(st.clients, loc) && I.ListsOk(st.tables.processes, loc) && I.SwappedOk(st.swapped, loc)
    requires I.ClosersOk(st.closers, st.tables.processes, loc) && s in loc
    ensures exists w :: IsAt(st, s, w)
  {
    match loc[s]
    case Claimed(i) => assert IsAt(st, s, ByClient(i));
    case Listed(p, _) =>
      var k :| 0 <= k < |st.tables.processes[p].sessions| && st.tables.processes[p].sessions[k] == s;
      assert IsAt(st, s, OnList(p, k));
    case Swapped(g) => assert IsAt(st, s, InSwapped(g));
    case Leaving(j) => assert IsAt(st, s, ByCloser(j));
  }

  /** Every closure lets at most one restore win, and a session that is swapped has one win left. */
  lemma OneWinPerClosure(acts: seq<Action>, st: State, s: Text)
    requires Exec(acts) == Some(st)
    ensures st.history.parkings[s] == st.history.wins[s] + if exists g :: (g, s) in st.swapped then 1 else 0
  {
    hide Exec, I.Inv, I.ClientsOk, I.ListsOk, I.ClosersOk, I.LinksOk, I.StagesOk, I.FlagsOk, I.JobsOk,
      I.CapacityOk, I.IdsOk, I.CreatedOk, I.JobsConfig, I.SessionsConfig, I.ProcsConfig, I.LinksConfig,
      I.RequestsOk, I.InvocationsOk;
    var loc := Consistent(acts, st);
    if s in loc && loc[s].Swapped? {
      assert (loc[s].g, s) in st.swapped;
    }
  }

  // ----- configuration and memory size

  /** Whenever a restore has won, the record is there, and reading it gives the configuration the session
      was created with, its memory size negated. */
  lemma ConfigurationSurvives(acts: seq<Action>, st: State, i: nat)
    requires Exec(acts) == Some(st) && CanReadRecord(st, i)
    ensures
      var s := st.clients[i].session;
      && s in st.records && s in st.history.created
      && DoReadRecord(st, i).clients[i].Ready?
      && DoReadRecord(st, i).clients[i].job.config
         == Config(st.history.created[s].maxFunctions, Negate(st.history.created[s].memory))
  {
    hide Exec, I.Inv, I.ClientsOk, I.ListsOk, I.SwappedOk, I.ClosersOk, I.LinksOk, I.StagesOk, I.FlagsOk,
      I.JobsOk, I.CapacityOk, I.IdsOk, I.CreatedOk, I.JobsConfig, I.SessionsConfig, I.ProcsConfig,
      I.LinksConfig, I.RequestsOk, I.WinsOk, I.InvocationsOk;
    var loc := Consistent(acts, st);
    hide ParseRecord, PrintRecord;
    Moves.ClaimFact(st.clients, loc, i);
    V.WonRecord(st, loc, i);
  }

  /** End to end: for sizes of 1 to 2097151 kB, every shared memory segment that any runtime process ever
      has, and every closure that reports a size, has the byte count asked for at creation. */
  lemma SegmentsKeepTheirSize(acts: seq<Action>, st: State, p: Text)
    requires Exec(acts) == Some(st) && p in st.links
    ensures forall k :: 0 <= k < |st.links[p].forks| && st.links[p].forks[k].pid > 0 ==>
      var f := st.links[p].forks[k];
      f.session in st.history.created &&
      var m := st.history.created[f.session].memory;
      f.maxFunctions == st.history.created[f.session].maxFunctions && (1 <= m <= 2097151 ==> f.bytes == m * 1024)
    ensures forall k :: 0 <= k < |st.links[p].up| && st.links[p].up[k].Closed? ==>
      var c := st.links[p].up[k].closure;
      c.session in st.history.created &&
      var m := st.history.created[c.session].memory;
      (1 <= m <= 2097151 ==> c.bytes == 0 || c.bytes == m * 1024)
  {
    hide Exec, I.Inv, I.ClientsOk, I.ListsOk, I.SwappedOk, I.ClosersOk, I.LinksOk, I.StagesOk, I.FlagsOk,
      I.JobsOk, I.CapacityOk, I.IdsOk, I.CreatedOk, I.JobsConfig, I.SessionsConfig, I.ProcsConfig,
      I.LinksConfig, I.RequestsOk, I.WinsOk, I.InvocationsOk;
    var loc := Consistent(acts, st);
    hide SegmentBytes, Negate;
    V.LinkConfigFact(st.links, st.history.created, p);
    forall k | 0 <= k < |st.links[p].forks| && st.links[p].forks[k].pid > 0
      ensures I.ForkConfig(st.links[p].forks[k], st.history.created)
      ensures var m := st.history.created[st.links[p].forks[k].session].memory;
        1 <= m <= 2097151 ==> st.links[p].forks[k].bytes == m * 1024
    {
      SizePreservedIff(st.history.created[st.links[p].forks[k].session].memory);
    }
    forall k | 0 <= k < |st.links[p].up| && st.links[p].up[k].Closed?
      ensures I.ClosureConfig(st.links[p].up[k].closure, st.history.created)
      ensures var m := st.history.created[st.links[p].up[k].closure.session].memory;
        1 <= m <= 2097151 ==> st.links[p].up[k].closure.bytes == 0 || st.links[p].up[k].closure.bytes == m * 1024
    {
      SizePreservedIff(st.history.created[st.links[p].up[k].closure.session].memory);
    }
  }

  // ----- capacity

  /** At every step the counter of a process is its list plus the places reserved on it, within bounds. */
  lemma CapacityAccounting(acts: seq<Action>, st: State, p: Text)
    requires Exec(acts) == Some(st) && p in st.tables.processes
    ensures
      var pr := st.tables.processes[p];
      var reserved := set i | i in st.clients && st.clients[i].Reserved? && st.clients[i].process == p;
      && pr.allocatedSessions == |pr.sessions| + |reserved|
      && 0 <= pr.allocatedSessions <= pr.maxSessions
  {
    hide Exec, I.Inv, I.ClientsOk, I.ListsOk, I.SwappedOk, I.ClosersOk, I.LinksOk, I.StagesOk, I.FlagsOk,
      I.JobsOk, I.IdsOk, I.CreatedOk, I.JobsConfig, I.SessionsConfig, I.ProcsConfig, I.LinksConfig,
      I.RequestsOk, I.WinsOk, I.InvocationsOk;
    var loc := Consistent(acts, st);
    assert I.Reservations(st.clients, p)
      == set i | i in st.clients && st.clients[i].Reserved? && st.clients[i].process == p;
  }

  // ----- invocations

  /** The invocations submitted for a session are those written to its connections, then those queued. */
  lemma InvocationsConserved(acts: seq<Action>, st: State, s: Text)
    requires Exec(acts) == Some(st)
    ensures Submitted(st.history, s)
      == if s in st.tables.sessions then st.tables.sessions[s].delivered + st.tables.sessions[s].queue else []
  {
    hide Exec, I.Inv, I.ClientsOk, I.ListsOk, I.SwappedOk, I.ClosersOk, I.LinksOk, I.StagesOk, I.FlagsOk,
      I.JobsOk, I.CapacityOk, I.IdsOk, I.CreatedOk, I.JobsConfig, I.SessionsConfig, I.ProcsConfig,
      I.LinksConfig, I.RequestsOk, I.WinsOk;
    var loc := Consistent(acts, st);
    assert Submitted(st.history, s) == I.Output(st.tables, s);
  }

  // ----- allocation requests

  /** How often s was asked for on p: once per placement, less the placements that drop it, less one while
      the session waits for p to identify itself. */
  lemma OneRequestPerPlacement(acts: seq<Action>, st: State, p: Text, s: Text)
    requires Exec(acts) == Some(st) && p in st.tables.processes
    ensures p in st.links
    ensures
      var waiting :=
        s in st.tables.processes[p].sessions && s in st.tables.sessions && !st.tables.sessions[s].isAllocated;
      && I.Requests(st.tables.processes[p].sent, s) + st.history.dropped[(p, s)] + (if waiting then 1 else 0)
         == st.history.placements[(p, s)]
      && (st.links[p].stage == Live ==> !waiting)
  {
    hide Exec, I.Inv, I.ClientsOk, I.ListsOk, I.SwappedOk, I.ClosersOk, I.LinksOk, I.StagesOk, I.JobsOk,
      I.CapacityOk, I.IdsOk, I.CreatedOk, I.JobsConfig, I.SessionsConfig, I.ProcsConfig, I.LinksConfig,
      I.WinsOk, I.InvocationsOk;
    var loc := Consistent(acts, st);
    hide I.Requests;
    assert st.history.placements[(p, s)]
      == I.SentTo(st.tables, p, s) + st.history.dropped[(p, s)] + I.Awaiting(st.tables, p, s);
    if s in st.tables.processes[p].sessions {
      Moves.ListFact(st.tables.processes, loc, p);
    }
  }

  /** A placement is dropped exactly when its process existed but has not connected yet, or is new and the
      session is one that is being swapped in. */
  lemma DroppedIff(acts: seq<Action>, st: State, i: nat)
    requires Exec(acts) == Some(st) && CanPlace(st, i)
    ensures
      var Reserved(job, p, existing) := st.clients[i];
      Drops(st.tables, p, job.session, existing)
      <==> if existing then st.links[p].stage != Attached && st.links[p].stage != Live else job.swapIn
  {
    hide Exec, I.Inv, I.ClientsOk, I.ListsOk, I.SwappedOk, I.ClosersOk, I.LinksOk, I.StagesOk, I.FlagsOk,
      I.JobsOk, I.CapacityOk, I.IdsOk, I.CreatedOk, I.JobsConfig, I.SessionsConfig, I.ProcsConfig,
      I.LinksConfig, I.RequestsOk, I.WinsOk, I.InvocationsOk;
    var loc := Consistent(acts, st);
    Moves.ClaimFact(st.clients, loc, i);
    F.JobFact(st.clients, st.tables.sessions, i);
    F.StagesFact(st.clients, st.links, st.tables.processes, st.clients[i].process);
    if st.clients[i].job.session in st.tables.sessions {
      ClaimedIsAllocated(st.tables.sessions, st.links, loc, st.clients[i].job.session);
    }
  }

  lemma ClaimedIsAllocated(sessions: map<Text, SessionInfo>, links: map<Text, Link>, loc: I.Map, s: Text)
    requires I.FlagsOk(sessions, links, loc) && s in loc && loc[s].Claimed? && s in sessions
    ensures sessions[s].isAllocated
  {
  }

  /** Identification writes one request for every listed session that was not allocated, in the order of
      the list, and nothing else. */
  lemma IdentifyRequests(acts: seq<Action>, st: State, p: Text)
    requires Exec(acts) == Some(st) && CanIdentify(st, p)
    ensures
      var pr := st.tables.processes[p];
      DoIdentify(st, p).tables.processes[p].sent == pr.sent + Identification.Pending(st.tables.sessions, pr.sessions)
    ensures forall s ::
      (I.Requests(Identification.Pending(st.tables.sessions, st.tables.processes[p].sessions), s)
       == if s in st.tables.processes[p].sessions && Identification.Unallocated(st.tables.sessions, s) then 1 else 0)
  {
    hide Exec, I.Inv, I.ClientsOk, I.ListsOk, I.SwappedOk, I.ClosersOk, I.LinksOk, I.StagesOk, I.FlagsOk,
      I.JobsOk, I.CapacityOk, I.IdsOk, I.CreatedOk, I.JobsConfig, I.SessionsConfig, I.ProcsConfig,
      I.LinksConfig, I.RequestsOk, I.WinsOk, I.InvocationsOk;
    var loc := Consistent(acts, st);
    hide RequestAll, I.LinkOk, NoDup;
    Linked(st, loc, p);
    Identification.RequestAllEffect(st.tables, p, st.tables.processes[p].sessions);
    forall s {
      V.PendingCount(st.tables.sessions, st.tables.processes[p].sessions, s);
    }
  }
}
