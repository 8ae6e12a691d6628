/** What the handlers achieve, said without the functions that say how: who is restored and with which
    configuration, what a handler carries, what a placement leaves behind, when a process counts as free, which
    requests are written, and what a closure reports. */
module Outcomes {
  import opened Bytes
  import opened SessionRecord
  import opened MemorySize
  import opened Tables
  import opened RuntimeSessions
  import opened Protocol
  import I = Invariant
  import Runs
  import Moves
  import Theorems
  import Identification
  import V = StepValues
  import F = StepFlags

  // ----- one client handler alone

  /** The next Redis call of handler i, for a session that its caller named; nothing if there is none. */
  function NextCall(st: State, i: nat): (st': State) {
    if CanCheckAlive(st, i) then Apply(st, CheckAlive(i))
    else if CanClaim(st, i) then Apply(st, Claim(i))
    else if CanReadRecord(st, i) then Apply(st, ReadRecord(i))
    else st
  }

  /** process_client for a named session up to its second part, with nobody in between. */
  function Restored(st: State, i: nat, g: Text, s: Text, c: Config, inv: Option<Invocation>): (st': State)
    requires i !in st.clients
  {
    NextCall(NextCall(NextCall(Apply(st, Begin(i, g, s, c, inv)), i), i), i)
  }

  /** memory_size *= -1 on an int, which has no positive counterpart of its least value. */
  function Opposite(m: int32): (r: int32) { if m == -0x8000_0000 then m else -m }

  lemma NegateIs(m: int32)
    ensures Negate(m) == Opposite(m)
  {
  }

  /** After any run: a request for a named session of a known global process is let through exactly if the session
      is parked there and not alive. Then it leaves its SWAPPED set and comes back with the functions and the
      negated memory size of its creation; otherwise the answer is 400 and nothing changes. */
  lemma RestoreIff(acts: seq<Action>, st: State, i: nat, g: Text, s: Text, c: Config, inv: Option<Invocation>)
    requires Exec(acts) == Some(st) && i !in st.clients && g in st.names && s != []
    ensures
      var st' := Restored(st, i, g, s, c, inv);
      && i in st'.clients && (forall k :: k != i ==> (k in st'.clients <==> k in st.clients))
      && (forall k :: k in st.clients ==> st'.clients[k] == st.clients[k])
      && st'.alive == st.alive && st'.records == st.records && st'.tables == st.tables && st'.links == st.links
      && if (g, s) in st.swapped && (g, s) !in st.alive then
           && s in st.history.created && st'.swapped == st.swapped - {(g, s)}
           && var read := Config(st.history.created[s].maxFunctions, Opposite(st.history.created[s].memory));
              st'.clients[i] == Ready(Job(g, s, read, true, inv))
         else st'.clients[i] == Replied(400) && st'.swapped == st.swapped
  {
    hide Exec, ParseRecord, Apply, Enabled, NextCall;
    BeginIs(st, i, g, s, c, inv);
    var st1 := DoBegin(st, i, g, s, c, inv);
    NextCallIs(st1, i);
    var st2 := NextCall(st1, i);
    NextCallIs(st2, i);
    NextCallIs(NextCall(st2, i), i);
    if (g, s) in st.swapped && (g, s) !in st.alive {
      RestoreRun(acts, st, i, g, s, c, inv);
      NegateIs(st.history.created[s].memory);
    }
  }

  lemma BeginIs(st: State, i: nat, g: Text, s: Text, c: Config, inv: Option<Invocation>)
    requires i !in st.clients
    ensures Enabled(st, Begin(i, g, s, c, inv))
    ensures Apply(st, Begin(i, g, s, c, inv)) == DoBegin(st, i, g, s, c, inv)
  {
  }

  lemma NextCallIs(st: State, i: nat)
    ensures NextCall(st, i) ==
      if CanCheckAlive(st, i) then DoCheckAlive(st, i)
      else if CanClaim(st, i) then DoClaim(st, i)
      else if CanReadRecord(st, i) then DoReadRecord(st, i)
      else st
  {
    hide ParseRecord;
  }

  lemma RestoreRun(acts: seq<Action>, st: State, i: nat, g: Text, s: Text, c: Config, inv: Option<Invocation>)
    requires Exec(acts) == Some(st) && i !in st.clients && g in st.names && s != []
    requires (g, s) in st.swapped && (g, s) !in st.alive
    ensures s in st.history.created && s in st.records
    ensures ParseRecord(st.records[s], Config(0, 0)) == st.history.created[s]
  {
    hide Exec, ParseRecord, PrintRecord, I.Inv;
    var loc := Theorems.Consistent(acts, st);
    hide I.CreatedOk, I.SwappedOk;
    SwappedRecord(st, loc, g, s);
    RecordRoundTrip(st.history.created[s], Config(0, 0));
  }

  lemma SwappedRecord(st: State, loc: I.Map, g: Text, s: Text)
    requires I.SwappedOk(st.swapped, loc) && I.CreatedOk(st.history.created, st.records, loc) && (g, s) in st.swapped
    ensures s in st.history.created && s in st.records && st.records[s] == PrintRecord(st.history.created[s])
  {
    hide PrintRecord;
  }

  /** A request that names no session gets a new one, with the configuration that came with the request and a
      record of it; a request for an unknown global process gets a 400. */
  lemma NewSession(st: State, i: nat, g: Text, s: Text, c: Config, inv: Option<Invocation>)
    requires i !in st.clients && FreshUuid(st, s)
    ensures
      var st1 := Apply(st, Begin(i, g, [], c, inv));
      if g !in st.names then st1 == st.(clients := st.clients[i := Replied(400)])
      else
        Enabled(st1, Create(i, s)) &&
        var st' := Apply(st1, Create(i, s));
        && st'.clients == st.clients[i := Ready(Job(g, s, c, false, inv))]
        && st'.records.Keys == st.records.Keys + {s}
        && ParseRecord(st'.records[s], Config(0, 0)) == c
        && st'.alive == st.alive && st'.swapped == st.swapped && st'.tables == st.tables
  {
    hide ParseRecord, PrintRecord, NulFree;
    RecordRoundTrip(c, Config(0, 0));
  }

  // ----- what a handler carries

  /** The request that client handler i was started with. */
  function RequestOf(acts: seq<Action>, i: nat): (b: Option<Action>)
    ensures b.Some? ==> b.value.Begin?
    decreases |acts|
  {
    if acts == [] then None
    else if acts[|acts| - 1].Begin? && acts[|acts| - 1].i == i then Some(acts[|acts| - 1])
    else RequestOf(acts[..|acts| - 1], i)
  }

  /** A handler works for the global process, the session and the invocation of its request; with its configuration
      if the session is new, and with that of its creation, the size negated, if it is restored. */
  ghost predicate Carries(c: Client, b: Action, created: map<Text, Config>)
    requires b.Begin?
  {
    match c
    case Creating(g, config, inv) => g == b.g && config == b.c && inv == b.inv && b.s == []
    case Asked(g, s, inv) => g == b.g && s == b.s != [] && inv == b.inv
    case NotAlive(g, s, inv) => g == b.g && s == b.s != [] && inv == b.inv
    case Won(g, s, inv) => g == b.g && s == b.s != [] && inv == b.inv
    case Ready(job) => JobFor(job, b, created)
    case NoFree(job) => JobFor(job, b, created)
    case Reserved(job, _, _) => JobFor(job, b, created)
    case Placed(g, s) => g == b.g && (b.s != [] ==> s == b.s)
    case Replied(code) => code == 200 || code == 400
  }

  ghost predicate JobFor(job: Job, b: Action, created: map<Text, Config>)
    requires b.Begin?
  {
    && job.global == b.g && job.inv == b.inv && job.session in created
    && (b.s == [] ==> !job.swapIn && job.config == b.c == created[job.session])
    && (b.s != [] ==>
          && job.swapIn && job.session == b.s
          && job.config == Config(created[b.s].maxFunctions, Opposite(created[b.s].memory)))
  }

  ghost predicate AllCarry(acts: seq<Action>, st: State) {
    forall i :: i in st.clients ==>
      RequestOf(acts, i).Some? && Carries(st.clients[i], RequestOf(acts, i).value, st.history.created)
  }

  lemma RequestOfNext(acts: seq<Action>, a: Action, i: nat)
    ensures RequestOf(acts + [a], i) == if a.Begin? && a.i == i then Some(a) else RequestOf(acts, i)
  {
    assert (acts + [a])[..|acts + [a]| - 1] == acts;
  }

  /** The session's creation does not change what a handler carries. */
  lemma CarriesMore(c: Client, b: Action, created: map<Text, Config>, s: Text, config: Config)
    requires b.Begin? && Carries(c, b, created) && s !in created
    ensures Carries(c, b, created[s := config])
  {
  }

  /** Client handlers other than i are left alone. */
  ghost predicate OnlyClient(st: State, st': State, i: nat) {
    && st'.clients.Keys == st.clients.Keys + {i}
    && forall k :: k in st.clients && k != i ==> st'.clients[k] == st.clients[k]
  }

  lemma BeginCarries(st: State, a: Action)
    requires a.Begin? && Enabled(st, a)
    ensures
      var st' := Apply(st, a);
      && OnlyClient(st, st', a.i) && st'.history == st.history
      && Carries(st'.clients[a.i], a, st'.history.created)
  {
  }

  lemma CreateCarries(st: State, i: nat, s: Text, b: Action)
    requires CanCreate(st, i, s) && b.Begin? && Carries(st.clients[i], b, st.history.created)
    ensures
      var st' := DoCreate(st, i, s);
      && OnlyClient(st, st', i) && st'.history.created == st.history.created[s := st.clients[i].config]
      && Carries(st'.clients[i], b, st'.history.created)
  {
    hide NulFree, PrintRecord;
  }

  lemma ReadCarries(acts: seq<Action>, st: State, i: nat, b: Action)
    requires Exec(acts) == Some(st) && CanReadRecord(st, i)
    requires b.Begin? && Carries(st.clients[i], b, st.history.created)
    ensures
      var st' := DoReadRecord(st, i);
      && OnlyClient(st, st', i) && st'.history == st.history
      && Carries(st'.clients[i], b, st'.history.created)
  {
    hide Exec, ParseRecord;
    Theorems.ConfigurationSurvives(acts, st, i);
    NegateIs(st.history.created[st.clients[i].session].memory);
  }

  /** The client actions that pass on what the handler carries. */
  predicate Passes(a: Action) {
    a.CheckAlive? || a.Claim? || a.ReserveFree? || a.FindNoFree? || a.AddProcess? || a.PlaceSession? || a.MarkAlive?
  }

  lemma PassCarries(st: State, a: Action, b: Action)
    requires Passes(a) && Enabled(st, a) && a.i in st.clients && b.Begin?
    requires Carries(st.clients[a.i], b, st.history.created)
    ensures
      var st' := Apply(st, a);
      && OnlyClient(st, st', a.i) && st'.history.created == st.history.created
      && Carries(st'.clients[a.i], b, st'.history.created)
  {
    hide Enabled, Apply;
    PassEffect(st, a);
  }

  /** No such action changes what was created, or another handler. */
  lemma PassEffect(st: State, a: Action)
    requires Passes(a) && Enabled(st, a)
    ensures a.i in st.clients && a.i in Apply(st, a).clients
    ensures Apply(st, a).history.created == st.history.created
    ensures Apply(st, a).clients == st.clients[a.i := Apply(st, a).clients[a.i]]
    ensures
      var c, c' := st.clients[a.i], Apply(st, a).clients[a.i];
      && (a.CheckAlive? || a.Claim? ==> CallKeeps(c, c'))
      && (a.MarkAlive? ==> c.Placed? && c' == Replied(200))
      && (a.PlaceSession? ==> c.Reserved? && c' == Placed(c.job.global, c.job.session))
      && (a.ReserveFree? || a.FindNoFree? || a.AddProcess? ==> SearchKeeps(c, c'))
  {
    hide Enabled, Apply;
    PassClient(st, a);
    if a.CheckAlive? || a.Claim? {
      CallEffect(st, a);
    } else if a.MarkAlive? {
      MarkEffect(st, a);
    } else if a.PlaceSession? {
      PlaceEffect(st, a);
    } else {
      SearchEffect(st, a);
    }
  }

  predicate CallKeeps(c: Client, c': Client) {
    || c' == Replied(400)
    || (c.Asked? && c' == NotAlive(c.global, c.session, c.inv))
    || (c.NotAlive? && c' == Won(c.global, c.session, c.inv))
  }

  predicate SearchKeeps(c: Client, c': Client) {
    || (c.Ready? && (c' == NoFree(c.job) || (c'.Reserved? && c'.job == c.job)))
    || (c.NoFree? && c'.Reserved? && c'.job == c.job)
  }

  lemma CallEffect(st: State, a: Action)
    requires (a.CheckAlive? || a.Claim?) && Enabled(st, a)
    ensures a.i in st.clients && a.i in Apply(st, a).clients
    ensures Apply(st, a).history.created == st.history.created
    ensures Apply(st, a).clients == st.clients[a.i := Apply(st, a).clients[a.i]]
    ensures CallKeeps(st.clients[a.i], Apply(st, a).clients[a.i])
  {
  }

  lemma MarkEffect(st: State, a: Action)
    requires a.MarkAlive? && Enabled(st, a)
    ensures Apply(st, a).history.created == st.history.created
    ensures a.i in st.clients && Apply(st, a).clients == st.clients[a.i := Replied(200)] && st.clients[a.i].Placed?
  {
  }

  lemma SearchEffect(st: State, a: Action)
    requires (a.ReserveFree? || a.FindNoFree? || a.AddProcess?) && Enabled(st, a)
    ensures a.i in st.clients && a.i in Apply(st, a).clients
    ensures Apply(st, a).history.created == st.history.created
    ensures Apply(st, a).clients == st.clients[a.i := Apply(st, a).clients[a.i]]
    ensures SearchKeeps(st.clients[a.i], Apply(st, a).clients[a.i])
  {
    hide FreshUuid, HasRoom, Reserve, NewProcess;
  }

  lemma PlaceEffect(st: State, a: Action)
    requires a.PlaceSession? && Enabled(st, a)
    ensures a.i in st.clients && a.i in Apply(st, a).clients
    ensures Apply(st, a).history.created == st.history.created
    ensures
      var c, c' := st.clients[a.i], Apply(st, a).clients[a.i];
      && Apply(st, a).clients == st.clients[a.i := c']
      && c.Reserved? && c' == Placed(c.job.global, c.job.session)
  {
    hide Place, Drops, Submitted;
  }

  predicate OfRuntime(a: Action) {
    a.Take? || a.Announce? || a.AllocateSession? || a.Reply? || a.DeleteSession? || a.ReportClosure?
  }

  lemma OtherCarries(st: State, a: Action)
    requires Enabled(st, a) && !Passes(a) && !a.Begin? && !a.Create? && !a.ReadRecord?
    ensures Apply(st, a).clients == st.clients && Apply(st, a).history.created == st.history.created
  {
    hide Enabled, Apply;
    if OfRuntime(a) {
      RuntimeCarries(st, a);
    } else {
      TablesCarry(st, a);
    }
  }

  lemma RuntimeCarries(st: State, a: Action)
    requires Enabled(st, a) && OfRuntime(a)
    ensures Apply(st, a).clients == st.clients && Apply(st, a).history == st.history
  {
    hide Allocate, FindPid, Hosts;
  }

  lemma TablesCarry(st: State, a: Action)
    requires Enabled(st, a) && !OfRuntime(a) && !Passes(a) && !a.Begin? && !a.Create? && !a.ReadRecord?
    ensures Apply(st, a).clients == st.clients && Apply(st, a).history.created == st.history.created
  {
    hide NulFree, RequestAll, Remove, Drain, Attach;
  }

  lemma FreshIsNew(acts: seq<Action>, st: State, s: Text)
    requires Exec(acts) == Some(st) && FreshUuid(st, s)
    ensures s !in st.history.created && s !in st.tables.processes && s !in st.tables.sessions
  {
    hide Exec, I.Inv, FreshUuid;
    var loc := Theorems.Consistent(acts, st);
    hide I.IdsOk;
    Runs.Fresh(st, loc, s);
  }

  lemma CarryStep(acts: seq<Action>, st: State, a: Action)
    requires Exec(acts) == Some(st) && Enabled(st, a) && AllCarry(acts, st)
    ensures AllCarry(acts + [a], Apply(st, a))
  {
    hide Exec, Enabled, Apply, Carries, RequestOf;
    forall i ensures RequestOf(acts + [a], i) == if a.Begin? && a.i == i then Some(a) else RequestOf(acts, i) {
      RequestOfNext(acts, a, i);
    }
    if a.Begin? {
      BeginNew(st, a);
      BeginCarries(st, a);
    } else if a.Create? {
      CreateAllCarry(acts, st, a);
    } else if a.ReadRecord? {
      ReadAllCarry(acts, st, a);
    } else if Passes(a) {
      PassClient(st, a);
      PassCarries(st, a, RequestOf(acts, a.i).value);
    } else {
      OtherCarries(st, a);
    }
  }

  lemma BeginNew(st: State, a: Action)
    requires a.Begin? && Enabled(st, a)
    ensures a.i !in st.clients
  {
  }

  lemma PassClient(st: State, a: Action)
    requires Passes(a) && Enabled(st, a)
    ensures a.i in st.clients
  {
    hide FreshUuid, HasRoom;
  }

  lemma CreateAllCarry(acts: seq<Action>, st: State, a: Action)
    requires Exec(acts) == Some(st) && a.Create? && Enabled(st, a) && AllCarry(acts, st)
    requires forall i :: RequestOf(acts + [a], i) == RequestOf(acts, i)
    ensures AllCarry(acts + [a], Apply(st, a))
  {
    hide Exec, Carries, RequestOf, DoCreate, FreshUuid;
    FreshIsNew(acts, st, a.s);
    CreateCarries(st, a.i, a.s, RequestOf(acts, a.i).value);
    forall k | k in st.clients
      ensures Carries(st.clients[k], RequestOf(acts, k).value, st.history.created[a.s := st.clients[a.i].config])
    {
      CarriesMore(st.clients[k], RequestOf(acts, k).value, st.history.created, a.s, st.clients[a.i].config);
    }
  }

  lemma ReadAllCarry(acts: seq<Action>, st: State, a: Action)
    requires Exec(acts) == Some(st) && a.ReadRecord? && Enabled(st, a) && AllCarry(acts, st)
    requires forall i :: RequestOf(acts + [a], i) == RequestOf(acts, i)
    ensures AllCarry(acts + [a], Apply(st, a))
  {
    hide Exec, Carries, RequestOf, DoReadRecord;
    ReadCarries(acts, st, a.i, RequestOf(acts, a.i).value);
  }

  lemma {:induction false} RunCarries(acts: seq<Action>)
    requires Exec(acts).Some?
    ensures AllCarry(acts, Exec(acts).value)
  {
    hide Enabled, Apply, Carries, RequestOf;
    if acts != [] {
      var before := acts[..|acts| - 1];
      RunCarries(before);
      assert before + [acts[|acts| - 1]] == acts;
      CarryStep(before, Exec(before).value, acts[|acts| - 1]);
    }
  }

  /** In every run, whatever else happens, each handler carries what its own request asked for. */
  lemma HandlerCarries(acts: seq<Action>, st: State, i: nat)
    requires Exec(acts) == Some(st) && i in st.clients
    ensures RequestOf(acts, i).Some? && Carries(st.clients[i], RequestOf(acts, i).value, st.history.created)
  {
    hide Exec, Carries, RequestOf;
    RunCarries(acts);
  }

  // ----- what a placement leaves behind

  function QueueOf(t: Tables, s: Text): (queue: seq<Invocation>) {
    if s in t.sessions then t.sessions[s].queue else []
  }

  /** A placement puts the session at the end of its process's list and the invocation of its request, if there
      is one, at the end of the session's queue; the session has the configuration of the job; no other session
      and no other process changes. */
  lemma PlacementIs(st: State, i: nat)
    requires CanPlace(st, i)
    ensures
      var (t, t') := (st.tables, DoPlace(st, i).tables);
      var Reserved(job, p, existing) := st.clients[i];
      var s := job.session;
      && t'.processes.Keys == t.processes.Keys && t'.sessions.Keys == t.sessions.Keys + {s}
      && (forall q :: q in t.processes && q != p ==> t'.processes[q] == t.processes[q])
      && (forall r :: r in t.sessions && r != s ==> t'.sessions[r] == t.sessions[r])
      && t'.processes[p].sessions == t.processes[p].sessions + [s]
      && t'.processes[p].allocatedSessions == t.processes[p].allocatedSessions
      && t'.processes[p].globalId == t.processes[p].globalId
      && t'.processes[p].sent == t.processes[p].sent + (
           if existing && t.processes[p].connected then [Request(s, job.config.maxFunctions, job.config.memory)]
           else [])
      && t'.sessions[s].maxFunctions == job.config.maxFunctions && t'.sessions[s].memory == job.config.memory
      && t'.sessions[s].swapIn == job.swapIn
      && (existing ==> t'.sessions[s].isAllocated)
      && match job.inv
         case Some(x) =>
           && QueueOf(t', s) == QueueOf(t, s) + [x]
           && Submitted(DoPlace(st, i).history, s) == Submitted(st.history, s) + [x]
         case None =>
           && QueueOf(t', s) == QueueOf(t, s)
           && Submitted(DoPlace(st, i).history, s) == Submitted(st.history, s)
  {
    hide Drops;
  }

  /** The invocations of the requests whose sessions were placed, in the order of the placements. */
  ghost function AskedFor(acts: seq<Action>, s: Text): (list: seq<Invocation>)
    requires Exec(acts).Some?
  {
    if acts == [] then []
    else
      var before, a := acts[..|acts| - 1], acts[|acts| - 1];
      AskedFor(before, s) + AskedBy(before, Exec(before).value, a, s)
  }

  ghost function AskedBy(acts: seq<Action>, st: State, a: Action, s: Text): (list: seq<Invocation>)
    requires Enabled(st, a)
  {
    if a.PlaceSession? && st.clients[a.i].job.session == s && RequestOf(acts, a.i).Some? then
      match RequestOf(acts, a.i).value.inv
      case Some(x) => [x]
      case None => []
    else []
  }

  lemma SubmittedStep(acts: seq<Action>, st: State, a: Action, s: Text)
    requires Exec(acts) == Some(st) && Enabled(st, a)
    ensures Submitted(Apply(st, a).history, s) == Submitted(st.history, s) + AskedBy(acts, st, a, s)
  {
    hide Exec, Enabled, Apply, Carries, RequestOf, Submitted;
    if a.PlaceSession? {
      PlaceClient(st, a);
      HandlerCarries(acts, st, a.i);
      PlacedInvocation(st, a.i, RequestOf(acts, a.i).value, s);
    } else {
      SameSubmitted(st, a, s);
    }
  }

  lemma PlaceClient(st: State, a: Action)
    requires a.PlaceSession? && Enabled(st, a)
    ensures CanPlace(st, a.i) && Apply(st, a) == DoPlace(st, a.i)
  {
  }

  lemma PlacedInvocation(st: State, i: nat, b: Action, s: Text)
    requires CanPlace(st, i) && b.Begin? && Carries(st.clients[i], b, st.history.created)
    ensures st.clients[i].job.inv == b.inv
    ensures Submitted(DoPlace(st, i).history, s) == Submitted(st.history, s) +
      if st.clients[i].job.session == s && b.inv.Some? then [b.inv.value] else []
  {
    hide Drops, Place, DoPlace, Submitted;
    PlacementIs(st, i);
    if st.clients[i].job.session != s {
      OtherSubmitted(st, i, s);
    }
  }

  lemma OtherSubmitted(st: State, i: nat, s: Text)
    requires CanPlace(st, i) && st.clients[i].job.session != s
    ensures Submitted(DoPlace(st, i).history, s) == Submitted(st.history, s)
  {
    hide Drops, Place;
  }

  lemma SameSubmitted(st: State, a: Action, s: Text)
    requires Enabled(st, a) && !a.PlaceSession?
    ensures Submitted(Apply(st, a).history, s) == Submitted(st.history, s)
  {
    hide FreshUuid, HasRoom, CanPlace, DoPlace, Allocate, FindPid, RequestAll, Remove, Drain, ParseRecord, PrintRecord;
  }

  /** Over every run: what counts as submitted for a session is what the requests asked for whose handlers have
      placed it, each once, in the order of the placements. */
  lemma {:induction false} SubmittedIsAskedFor(acts: seq<Action>, st: State, s: Text)
    requires Exec(acts) == Some(st)
    ensures Submitted(st.history, s) == AskedFor(acts, s)
  {
    hide Enabled, Apply, AskedBy, Submitted;
    if acts == [] {
      NothingSubmitted(s);
    } else {
      var before := acts[..|acts| - 1];
      SubmittedIsAskedFor(before, Exec(before).value, s);
      SubmittedStep(before, Exec(before).value, acts[|acts| - 1], s);
    }
  }

  lemma NothingSubmitted(s: Text)
    ensures Submitted(INIT.history, s) == []
  {
  }

  // ----- when a process counts as free

  ghost function ReservedOn(clients: map<nat, Client>, p: Text): (handlers: set<nat>) {
    set i | i in clients && clients[i].Reserved? && clients[i].process == p
  }

  /** After any run: a process is free for a handler exactly if the sessions on its list and the handlers that have
      reserved a place on it are fewer than its maximum, and the search fails exactly if on every process they
      are equal to it. */
  lemma FreeIff(acts: seq<Action>, st: State, i: nat)
    requires Exec(acts) == Some(st) && i in st.clients && st.clients[i].Ready?
    ensures forall p :: p in st.tables.processes ==>
      (CanReserveFree(st, i, p)
       <==> |st.tables.processes[p].sessions| + |ReservedOn(st.clients, p)| < MAX_SESSIONS_PER_PROCESS as int)
    ensures CanFindNoFree(st, i) <==> forall p :: p in st.tables.processes ==>
      |st.tables.processes[p].sessions| + |ReservedOn(st.clients, p)| == MAX_SESSIONS_PER_PROCESS as int
  {
    hide Exec, HasRoom, ReservedOn;
    forall p | p in st.tables.processes
      ensures HasRoom(st.tables.processes[p])
        <==> |st.tables.processes[p].sessions| + |ReservedOn(st.clients, p)| < MAX_SESSIONS_PER_PROCESS as int
      ensures |st.tables.processes[p].sessions| + |ReservedOn(st.clients, p)| <= MAX_SESSIONS_PER_PROCESS as int
    {
      RoomIff(acts, st, p);
    }
  }

  lemma RoomIff(acts: seq<Action>, st: State, p: Text)
    requires Exec(acts) == Some(st) && p in st.tables.processes
    ensures HasRoom(st.tables.processes[p])
      <==> |st.tables.processes[p].sessions| + |ReservedOn(st.clients, p)| < MAX_SESSIONS_PER_PROCESS as int
    ensures |st.tables.processes[p].sessions| + |ReservedOn(st.clients, p)| <= MAX_SESSIONS_PER_PROCESS as int
  {
    hide Exec, I.Inv, I.ClientsOk, I.ListsOk, I.SwappedOk, I.ClosersOk, I.LinksOk, I.StagesOk, I.FlagsOk, I.JobsOk,
      I.CapacityOk, I.IdsOk, I.CreatedOk, I.JobsConfig, I.SessionsConfig, I.ProcsConfig, I.LinksConfig,
      I.RequestsOk, I.WinsOk, I.InvocationsOk;
    Theorems.CapacityAccounting(acts, st, p);
    assert ReservedOn(st.clients, p)
      == set i | i in st.clients && st.clients[i].Reserved? && st.clients[i].process == p;
    hide ReservedOn;
    var loc := Theorems.Consistent(acts, st);
    F.CapacityFact(st.clients, st.tables.processes, p);
  }

  // ----- what a closure achieves

  function Closed(st: State, j: nat): (st': State)
    requires CanRemove(st, j)
  {
    var st1 := DoRemove(st, j);
    var st2 := DoUnmark(st1, j);
    RemoveKeeps(st.tables, st.closers[j].process, st.closers[j].session);
    DoErase(DoPark(st2, j), j)
  }

  /** After any run: the four steps of a closure handler, taken in a row, take the session off its process's list,
      give its place back and park it under the process's global id; no other entry and no other process
      changes. */
  lemma ClosureIs(acts: seq<Action>, st: State, j: nat)
    requires Exec(acts) == Some(st) && j in st.closers && st.closers[j].Received?
    ensures CanRemove(st, j)
    ensures
      var (p, s) := (st.closers[j].process, st.closers[j].session);
      var (pr, g) := (st.tables.processes[p], st.tables.processes[p].globalId);
      var st' := Closed(st, j);
      && st'.closers == st.closers[j := Finished] && st'.clients == st.clients && st'.links == st.links
      && st'.alive == st.alive - {(p, s), (g, s)} && st'.swapped == st.swapped + {(g, s)}
      && st'.tables.sessions == st.tables.sessions && st'.tables.processes.Keys == st.tables.processes.Keys
      && (forall q :: q in st.tables.processes && q != p ==> st'.tables.processes[q] == st.tables.processes[q])
      && s in pr.sessions && multiset(st'.tables.processes[p].sessions) == multiset(pr.sessions) - multiset{s}
      && s !in st'.tables.processes[p].sessions
      && st'.tables.processes[p].allocatedSessions == pr.allocatedSessions - 1
      && st'.tables.processes[p].sent == pr.sent && st'.tables.processes[p].globalId == g
  {
    hide Exec, I.Inv, Remove;
    ClosingListed(acts, st, j);
    var (p, s) := (st.closers[j].process, st.closers[j].session);
    RemovedOnce(st.tables, p, s);
  }

  lemma ClosingListed(acts: seq<Action>, st: State, j: nat)
    requires Exec(acts) == Some(st) && j in st.closers && st.closers[j].Received?
    ensures CanRemove(st, j)
    ensures
      var list := st.tables.processes[st.closers[j].process].sessions;
      st.closers[j].session in list && NoDup(list)
  {
    hide Exec, I.Inv, I.ClosersOk, I.ListsOk, NoDup;
    var loc := Theorems.Consistent(acts, st);
    Moves.CloserFact(st.closers, st.tables.processes, loc, j);
    Moves.ListFact(st.tables.processes, loc, st.closers[j].process);
  }

  lemma RemovedOnce(t: Tables, p: Text, s: Text)
    requires p in t.processes && s in t.processes[p].sessions && NoDup(t.processes[p].sessions)
    ensures
      var (t', pr) := (Remove(t, p, s), t.processes[p]);
      && t'.sessions == t.sessions && t'.processes.Keys == t.processes.Keys
      && (forall q :: q in t.processes && q != p ==> t'.processes[q] == t.processes[q])
      && multiset(t'.processes[p].sessions) == multiset(pr.sessions) - multiset{s}
      && s !in t'.processes[p].sessions
      && t'.processes[p].allocatedSessions == pr.allocatedSessions - 1
      && t'.processes[p].sent == pr.sent && t'.processes[p].globalId == pr.globalId
  {
    var list := t.processes[p].sessions;
    var k := IndexOf(list, s);
    assert list == list[..k] + [s] + list[k + 1..];
    assert RemoveAt(list, k) == list[..k] + list[k + 1..];
  }

  // ----- nobody is stuck

  /** After any run: whatever a handler waits for, its next step is possible; a fresh id is all that it needs. */
  lemma ClientGoesOn(acts: seq<Action>, st: State, i: nat, id: Text)
    requires Exec(acts) == Some(st) && i in st.clients && FreshUuid(st, id)
    ensures
      match st.clients[i]
      case Creating(_, _, _) => Enabled(st, Create(i, id))
      case Asked(_, _, _) => Enabled(st, CheckAlive(i))
      case NotAlive(_, _, _) => Enabled(st, Claim(i))
      case Won(_, _, _) => Enabled(st, ReadRecord(i))
      case Ready(_) => Enabled(st, FindNoFree(i)) || exists p :: Enabled(st, ReserveFree(i, p))
      case NoFree(_) => Enabled(st, AddProcess(i, id))
      case Reserved(_, _, _) => Enabled(st, PlaceSession(i))
      case Placed(_, _) => Enabled(st, MarkAlive(i))
      case Replied(_) => true
  {
    hide Exec, FreshUuid, HasRoom;
    if st.clients[i].Reserved? {
      Reserves(acts, st, i);
    } else if st.clients[i].Ready? && !Enabled(st, FindNoFree(i)) {
      var p :| p in st.tables.processes && HasRoom(st.tables.processes[p]);
      assert Enabled(st, ReserveFree(i, p));
    }
  }

  lemma Reserves(acts: seq<Action>, st: State, i: nat)
    requires Exec(acts) == Some(st) && i in st.clients && st.clients[i].Reserved?
    ensures CanPlace(st, i)
  {
    hide Exec;
    Linked(acts, st);
  }

  /** The processes that links and handlers name are in the table, and its ids are used up. */
  lemma Linked(acts: seq<Action>, st: State)
    requires Exec(acts) == Some(st)
    ensures st.links.Keys == st.tables.processes.Keys && st.tables.processes.Keys <= st.history.uuids
    ensures forall i :: i in st.clients && st.clients[i].Reserved? ==> st.clients[i].process in st.tables.processes
    ensures forall j :: j in st.closers && !st.closers[j].Finished? ==> st.closers[j].process in st.tables.processes
  {
    hide Exec, I.Inv, I.ClientsOk, I.ListsOk, I.SwappedOk, I.LinksOk, I.FlagsOk, I.JobsOk, I.CapacityOk,
      I.WinsOk, I.RequestsOk, I.InvocationsOk, I.CreatedOk, I.LinksConfig, I.JobsConfig, I.SessionsConfig,
      I.ProcsConfig;
    var loc := Theorems.Consistent(acts, st);
  }

  lemma CloserGoesOn(acts: seq<Action>, st: State, j: nat)
    requires Exec(acts) == Some(st) && j in st.closers
    ensures
      match st.closers[j]
      case Received(_, _) => Enabled(st, RemoveSession(j))
      case Removed(_, _) => Enabled(st, Unmark(j))
      case Unmarked(_, _) => Enabled(st, Park(j))
      case Parked(_, _) => Enabled(st, EraseAlive(j))
      case Finished => true
  {
    hide Exec;
    Linked(acts, st);
  }

  /** A process that was started connects and is asked, and its messages are taken up; j is a closure handler that was
      not used yet. */
  lemma LinkGoesOn(acts: seq<Action>, st: State, p: Text, j: nat)
    requires Exec(acts) == Some(st) && p in st.links && j !in st.closers
    ensures p in st.tables.processes
    ensures
      var l := st.links[p];
      && (l.stage == Spawned ==> Enabled(st, Announce(p)))
      && (l.stage == Announced ==> Enabled(st, AttachProcess(p)))
      && (l.stage == Attached ==> Enabled(st, Identify(p)))
      && (l.stage == Live && l.up != [] ==> Enabled(st, Take(p, j)))
  {
    hide Exec, HasRoom, NulFree;
    Linked(acts, st);
  }

  /** Requests are carried out and answered, ended children are reported. */
  lemma RuntimeGoesOn(acts: seq<Action>, st: State, p: Text)
    requires Exec(acts) == Some(st) && p in st.links
    ensures p in st.tables.processes
    ensures
      var l := st.links[p];
      && (l.reply.None? && l.taken < |st.tables.processes[p].sent| ==> Enabled(st, AllocateSession(p, NoMemory)))
      && (l.reply.Some? ==> Enabled(st, Reply(p)))
      && (forall c :: c in l.closing ==> Enabled(st, ReportClosure(p, c)))
      && (forall k, swapping :: 0 <= k < |l.forks| && l.forks[k].pid > 0 ==>
            Enabled(st, DeleteSession(p, l.forks[k].pid, swapping)))
  {
    hide Exec, HasRoom, NulFree, FindPid;
    Linked(acts, st);
  }
}
