/** Every action keeps configurations, ids and counts. */
module StepValues {
  import opened Bytes
  import opened SessionRecord
  import opened MemorySize
  import opened Tables
  import opened RuntimeSessions
  import opened Protocol
  import opened Invariant
  import opened Identification

  // ----- configurations, one part at a time

  lemma JobsSet(clients: map<nat, Client>, created: map<Text, Config>, i: nat, c: Client)
    requires JobsConfig(clients, created) && (HasJob(c) ==> JobConfig(c.job, created))
    ensures JobsConfig(clients[i := c], created)
  {
  }

  lemma JobFact(clients: map<nat, Client>, created: map<Text, Config>, i: nat)
    requires JobsConfig(clients, created) && i in clients && HasJob(clients[i])
    ensures JobConfig(clients[i].job, created)
  {
  }

  lemma SessionsSet(sessions: map<Text, SessionInfo>, created: map<Text, Config>, s: Text, info: SessionInfo)
    requires SessionsConfig(sessions, created) && Matches(s, info.maxFunctions, info.memory, created)
    ensures SessionsConfig(sessions[s := info], created)
  {
  }

  lemma SessionsMark(sessions: map<Text, SessionInfo>, created: map<Text, Config>, list: seq<Text>)
    requires SessionsConfig(sessions, created)
    ensures SessionsConfig(Mark(sessions, list), created)
  {
  }

  lemma ProcsSet(procs: map<Text, ProcessInfo>, created: map<Text, Config>, p: Text, pr: ProcessInfo)
    requires ProcsConfig(procs, created)
    requires (p in procs && pr.sent == procs[p].sent) || SentConfig(pr.sent, created)
    ensures ProcsConfig(procs[p := pr], created)
  {
  }

  lemma SentMore(sent: seq<Request>, created: map<Text, Config>, more: seq<Request>)
    requires SentConfig(sent, created) && SentConfig(more, created)
    ensures SentConfig(sent + more, created)
  {
  }

  lemma SentFact(procs: map<Text, ProcessInfo>, created: map<Text, Config>, p: Text)
    requires ProcsConfig(procs, created) && p in procs
    ensures SentConfig(procs[p].sent, created)
  {
  }

  lemma PendingConfig(sessions: map<Text, SessionInfo>, created: map<Text, Config>, list: seq<Text>)
    requires SessionsConfig(sessions, created) && NoDup(list)
    ensures SentConfig(Pending(sessions, list), created)
  {
    PendingElements(sessions, list);
  }

  lemma LinksSetConfig(links: map<Text, Link>, created: map<Text, Config>, p: Text, l: Link)
    requires LinksConfig(links, created) && LinkConfig(l, created)
    ensures LinksConfig(links[p := l], created)
  {
  }

  lemma LinkConfigFact(links: map<Text, Link>, created: map<Text, Config>, p: Text)
    requires LinksConfig(links, created) && p in links
    ensures LinkConfig(links[p], created)
  {
  }

  lemma AllocateConfig(l: Link, created: map<Text, Config>, f: Fork, m: UpMessage)
    requires LinkConfig(l, created) && ForkConfig(f, created)
    ensures LinkConfig(l.(taken := l.taken + 1, forks := l.forks + [f], reply := Some(m)), created)
  {
  }

  lemma ReplyConfig(l: Link, created: map<Text, Config>)
    requires LinkConfig(l, created) && l.reply.Some? && l.reply.value.Status?
    ensures LinkConfig(l.(reply := None, up := l.up + [l.reply.value]), created)
  {
  }

  lemma DeleteConfig(l: Link, created: map<Text, Config>, k: nat, swapping: bool)
    requires LinkConfig(l, created) && k < |l.forks| && l.forks[k].pid > 0
    ensures LinkConfig(l.(forks := RemoveAt(l.forks, k),
                          closing := l.closing + multiset{Closing(l.forks[k], swapping)}), created)
  {
    assert ForkConfig(l.forks[k], created);
    assert ClosureConfig(Closing(l.forks[k], swapping), created);
  }

  lemma ReportConfig(l: Link, created: map<Text, Config>, c: Closure)
    requires LinkConfig(l, created) && c in l.closing
    ensures LinkConfig(l.(closing := l.closing - multiset{c}, up := l.up + [Closed(c)]), created)
  {
  }

  lemma TakeConfig(l: Link, created: map<Text, Config>)
    requires LinkConfig(l, created) && l.up != []
    ensures LinkConfig(l.(up := l.up[1..]), created)
  {
  }

  /** A new session changes no configuration that is already there. */
  lemma Grow(st: State, s: Text, c: Config)
    requires s !in st.history.created
    requires JobsConfig(st.clients, st.history.created) && SessionsConfig(st.tables.sessions, st.history.created)
    requires ProcsConfig(st.tables.processes, st.history.created) && LinksConfig(st.links, st.history.created)
    ensures var created := st.history.created[s := c];
      && JobsConfig(st.clients, created) && SessionsConfig(st.tables.sessions, created)
      && ProcsConfig(st.tables.processes, created) && LinksConfig(st.links, created)
  {
    var created := st.history.created[s := c];
    forall p | p in st.tables.processes ensures SentConfig(st.tables.processes[p].sent, created) {
      assert SentConfig(st.tables.processes[p].sent, st.history.created);
    }
    forall p | p in st.links ensures LinkConfig(st.links[p], created) {
      GrowLink(st.links[p], st.history.created, s, c);
    }
  }

  lemma GrowLink(l: Link, created: map<Text, Config>, s: Text, c: Config)
    requires s !in created && LinkConfig(l, created)
    ensures LinkConfig(l, created[s := c])
  {
  }

  // ----- counting requests

  lemma {:induction false} RequestsConcat(a: seq<Request>, b: seq<Request>, s: Text)
    ensures Requests(a + b, s) == Requests(a, s) + Requests(b, s)
  {
    if b == [] {
      assert a + b == a;
    } else {
      var n := |b| - 1;
      RequestsConcat(a, b[..n], s);
      assert (a + b)[..|a + b| - 1] == a + b[..n];
    }
  }

  lemma {:induction false} PendingCount(sessions: map<Text, SessionInfo>, list: seq<Text>, s: Text)
    requires NoDup(list)
    ensures Requests(Pending(sessions, list), s) == if s in list && Unallocated(sessions, s) then 1 else 0
  {
    if list != [] {
      var rest := list[1..];
      var first := if Unallocated(sessions, list[0]) then [RequestFor(sessions, list[0])] else [];
      PendingCount(sessions, rest, s);
      RequestsConcat(first, Pending(sessions, rest), s);
      assert list == [list[0]] + rest;
      assert list[0] !in rest;
    }
  }

  /** Nothing that is counted changes. */
  lemma RequestsSame(t: Tables, t': Tables, h: History, h': History)
    requires RequestsOk(t, h) && h.placements == h'.placements && h.dropped == h'.dropped
    requires forall p, s :: SentTo(t', p, s) == SentTo(t, p, s) && Awaiting(t', p, s) == Awaiting(t, p, s)
    ensures RequestsOk(t', h')
  {
  }

  lemma RequestsPlace(t: Tables, h: History, p: Text, s: Text, c: Config, swapIn: bool, inv: Option<Invocation>,
                      existing: bool, h': History)
    requires RequestsOk(t, h) && p in t.processes
    requires forall q :: q in t.processes ==> s !in t.processes[q].sessions
    requires h'.placements == h.placements + multiset{(p, s)}
    requires h'.dropped == if Drops(t, p, s, existing) then h.dropped + multiset{(p, s)} else h.dropped
    ensures RequestsOk(Place(t, p, s, c, swapIn, inv, existing), h')
  {
    hide Place, Drops, SentTo, Awaiting;
    forall q, x
      ensures h'.placements[(q, x)] == SentTo(Place(t, p, s, c, swapIn, inv, existing), q, x) + h'.dropped[(q, x)]
                                       + Awaiting(Place(t, p, s, c, swapIn, inv, existing), q, x)
    {
      assert h.placements[(q, x)] == SentTo(t, q, x) + h.dropped[(q, x)] + Awaiting(t, q, x);
      RequestsPlaceAt(t, h, p, s, c, swapIn, inv, existing, h', q, x);
    }
  }

  lemma RequestsPlaceAt(t: Tables, h: History, p: Text, s: Text, c: Config, swapIn: bool, inv: Option<Invocation>,
                        existing: bool, h': History, q: Text, x: Text)
    requires p in t.processes
    requires h.placements[(q, x)] == SentTo(t, q, x) + h.dropped[(q, x)] + Awaiting(t, q, x)
    requires q in t.processes ==> s !in t.processes[q].sessions
    requires h'.placements == h.placements + multiset{(p, s)}
    requires h'.dropped == if Drops(t, p, s, existing) then h.dropped + multiset{(p, s)} else h.dropped
    ensures h'.placements[(q, x)] == SentTo(Place(t, p, s, c, swapIn, inv, existing), q, x) + h'.dropped[(q, x)]
                                     + Awaiting(Place(t, p, s, c, swapIn, inv, existing), q, x)
  {
    hide Place, SentTo, Awaiting;
    PlaceSent(t, p, s, c, swapIn, inv, existing, q, x);
    PlaceAwaiting(t, p, s, c, swapIn, inv, existing, q, x);
  }

  lemma PlaceSent(t: Tables, p: Text, s: Text, c: Config, swapIn: bool, inv: Option<Invocation>, existing: bool,
                  q: Text, x: Text)
    requires p in t.processes
    ensures SentTo(Place(t, p, s, c, swapIn, inv, existing), q, x)
      == SentTo(t, q, x) + if q == p && x == s && existing && t.processes[p].connected then 1 else 0
  {
    var r := Request(s, c.maxFunctions, c.memory);
    RequestsConcat(t.processes[p].sent, [r], x);
    SingleRequest(r, x);
    hide Requests;
  }

  lemma SingleRequest(r: Request, s: Text)
    ensures Requests([r], s) == if r.session == s then 1 else 0
  {
    assert Requests([r][..0], s) == 0;
  }

  lemma PlaceAwaiting(t: Tables, p: Text, s: Text, c: Config, swapIn: bool, inv: Option<Invocation>, existing: bool,
                      q: Text, x: Text)
    requires p in t.processes && (q in t.processes ==> s !in t.processes[q].sessions)
    ensures Awaiting(Place(t, p, s, c, swapIn, inv, existing), q, x)
      == if q == p && x == s then
           (if existing || (s in t.sessions && t.sessions[s].isAllocated) then 0 else 1)
         else Awaiting(t, q, x)
    ensures q == p && x == s ==> Awaiting(t, q, x) == 0
  {
    var t' := Place(t, p, s, c, swapIn, inv, existing);
    if q == p {
      assert t'.processes[p].sessions == t.processes[p].sessions + [s];
    }
  }

  lemma RequestsIdentify(t: Tables, h: History, p: Text)
    requires RequestsOk(t, h) && p in t.processes && t.processes[p].connected && NoDup(t.processes[p].sessions)
    requires forall q, x :: q in t.processes && q != p && x in t.processes[q].sessions ==> x !in t.processes[p].sessions
    ensures RequestsOk(RequestAll(t, p, t.processes[p].sessions), h)
  {
    var list := t.processes[p].sessions;
    var t' := RequestAll(t, p, list);
    RequestAllEffect(t, p, list);
    forall q, x
      ensures h.placements[(q, x)] == SentTo(t', q, x) + h.dropped[(q, x)] + Awaiting(t', q, x)
    {
      assert h.placements[(q, x)] == SentTo(t, q, x) + h.dropped[(q, x)] + Awaiting(t, q, x);
      RequestsConcat(t.processes[p].sent, Pending(t.sessions, list), x);
      PendingCount(t.sessions, list, x);
    }
  }

  lemma RequestsRemove(t: Tables, h: History, p: Text, s: Text)
    requires RequestsOk(t, h) && p in t.processes && NoDup(t.processes[p].sessions)
    requires s in t.sessions && t.sessions[s].isAllocated
    ensures RequestsOk(Remove(t, p, s), h)
  {
    var list := t.processes[p].sessions;
    var k := IndexOf(list, s);
    if k < |list| {
      Moves.RemoveAtDrops(list, k);
      RequestsSame(t, Remove(t, p, s), h, h);
    }
  }

  // ----- invocations

  lemma InvocationsPlace(t: Tables, h: History, p: Text, s: Text, c: Config, swapIn: bool, inv: Option<Invocation>,
                         existing: bool, h': History)
    requires InvocationsOk(t, h) && p in t.processes
    requires h'.submitted == h.submitted[s := Submitted(h, s) + OptionSeq(inv)]
    ensures InvocationsOk(Place(t, p, s, c, swapIn, inv, existing), h')
  {
    var t' := Place(t, p, s, c, swapIn, inv, existing);
    assert Submitted(h, s) == Output(t, s);
    forall x ensures Submitted(h', x) == Output(t', x) {
      assert Submitted(h, x) == Output(t, x);
    }
  }

  lemma InvocationsSame(t: Tables, t': Tables, h: History, h': History)
    requires InvocationsOk(t, h) && h.submitted == h'.submitted
    requires forall s :: Output(t', s) == Output(t, s)
    ensures InvocationsOk(t', h')
  {
  }

  // ----- wins

  lemma WinsMove(h: History, loc: Map, s: Text, to: Loc)
    requires WinsOk(h, loc) && (s in loc ==> !loc[s].Swapped?) && !to.Swapped?
    ensures WinsOk(h, loc[s := to])
  {
  }

  lemma WinsHistory(h: History, loc: Map, h': History)
    requires WinsOk(h, loc) && h'.parkings == h.parkings && h'.wins == h.wins
    ensures WinsOk(h', loc)
  {
  }

  lemma WinsShift(h: History, loc: Map, loc': Map, p: Text)
    requires WinsOk(h, loc) && Shift(loc, loc', p)
    ensures WinsOk(h, loc')
  {
  }

  lemma CreatedMove(created: map<Text, Config>, records: map<Text, Text>, loc: Map, s: Text, to: Loc)
    requires CreatedOk(created, records, loc) && s in loc
    ensures CreatedOk(created, records, loc[s := to])
  {
  }

  lemma IdsKeep(h: History, procs: map<Text, ProcessInfo>, names: set<Text>, h': History,
                 procs': map<Text, ProcessInfo>,
                names': set<Text>, more: set<Text>)
    requires IdsOk(h, procs, names) && h'.uuids == h.uuids + more
    requires forall id :: id in more ==> |id| == 16 && NulFree(id)
    requires h'.created.Keys <= h.created.Keys + more && procs'.Keys <= procs.Keys + more && names' <= names + more
    ensures IdsOk(h', procs', names')
  {
  }

  // ----- the actions

  lemma GlobalValues(st: State, loc: Map, g: Text)
    requires Values(st, loc) && FreshUuid(st, g)
    ensures Values(Apply(st, AddGlobal(g)), loc)
  {
    hide CreatedOk, JobsConfig, SessionsConfig, ProcsConfig, LinksConfig, IdsOk, RequestsOk, WinsOk, InvocationsOk;
    var st' := Apply(st, AddGlobal(g));
    IdsKeep(st.history, st.tables.processes, st.names, st'.history, st'.tables.processes, st'.names, {g});
    WinsHistory(st.history, loc, st'.history);
    RequestsSame(st.tables, st.tables, st.history, st'.history);
    InvocationsSame(st.tables, st.tables, st.history, st'.history);
  }

  /** A step of one handler that writes nothing that is configured or counted. */
  lemma ClientValues(st: State, loc: Map, i: nat, c: Client)
    requires Values(st, loc) && (HasJob(c) ==> JobConfig(c.job, st.history.created))
    ensures Values(SetClient(st, i, c), loc)
  {
    hide CreatedOk, JobsConfig, SessionsConfig, ProcsConfig, LinksConfig, IdsOk, RequestsOk, WinsOk, InvocationsOk;
    JobsSet(st.clients, st.history.created, i, c);
  }

  lemma CreatedNew(created: map<Text, Config>, records: map<Text, Text>, loc: Map, s: Text, c: Config, to: Loc)
    requires CreatedOk(created, records, loc) && s !in loc
    ensures s !in created && CreatedOk(created[s := c], records[s := PrintRecord(c)], loc[s := to])
  {
  }

  lemma CreateValues(st: State, loc: Map, i: nat, s: Text)
    requires Values(st, loc) && CanCreate(st, i, s) && s !in loc
    ensures Values(DoCreate(st, i, s), loc[s := Claimed(i)])
  {
    hide CreatedOk, JobsConfig, SessionsConfig, ProcsConfig, LinksConfig, IdsOk, RequestsOk, WinsOk, InvocationsOk;
    var st' := DoCreate(st, i, s);
    var c := st.clients[i].config;
    CreatedNew(st.history.created, st.records, loc, s, c, Claimed(i));
    Grow(st, s, c);
    JobsSet(st.clients, st'.history.created, i, st'.clients[i]);
    IdsKeep(st.history, st.tables.processes, st.names, st'.history, st'.tables.processes, st'.names, {s});
    WinsMove(st.history, loc, s, Claimed(i));
    WinsHistory(st.history, loc[s := Claimed(i)], st'.history);
    RequestsSame(st.tables, st.tables, st.history, st'.history);
    InvocationsSame(st.tables, st.tables, st.history, st'.history);
  }

  lemma ClaimWins(h: History, loc: Map, s: Text, g: Text, i: nat)
    requires WinsOk(h, loc) && At(loc, s, Swapped(g))
    ensures WinsOk(h.(wins := h.wins + multiset{s}), loc[s := Claimed(i)])
  {
  }

  lemma ClaimValues(st: State, loc: Map, i: nat)
    requires Values(st, loc) && CanClaim(st, i) && SwappedOk(st.swapped, loc)
    ensures Values(DoClaim(st, i), Claiming(st, loc, i))
  {
    var pc, st' := st.clients[i], DoClaim(st, i);
    if (pc.global, pc.session) in st.swapped {
      assert At(loc, pc.session, Swapped(pc.global));
      hide CreatedOk, JobsConfig, SessionsConfig, ProcsConfig, LinksConfig, IdsOk, RequestsOk, WinsOk, InvocationsOk;
      CreatedMove(st.history.created, st.records, loc, pc.session, Claimed(i));
      JobsSet(st.clients, st.history.created, i, st'.clients[i]);
      IdsKeep(st.history, st.tables.processes, st.names, st'.history, st'.tables.processes, st'.names, {});
      ClaimWins(st.history, loc, pc.session, pc.global, i);
      RequestsSame(st.tables, st.tables, st.history, st'.history);
      InvocationsSame(st.tables, st.tables, st.history, st'.history);
    } else {
      hide CreatedOk, JobsConfig, SessionsConfig, ProcsConfig, LinksConfig, IdsOk, RequestsOk, WinsOk, InvocationsOk;
      ClientValues(st, loc, i, Replied(400));
    }
  }

  /** The record of a session that was won exists and gives back its configuration. */
  lemma WonRecord(st: State, loc: Map, i: nat)
    requires CreatedOk(st.history.created, st.records, loc) && CanReadRecord(st, i) && st.clients[i].session in loc
    ensures var s := st.clients[i].session;
      && s in st.history.created && s in st.records
      && ParseRecord(st.records[s], Config(0, 0)) == st.history.created[s]
  {
    var s := st.clients[i].session;
    assert st.records[s] == PrintRecord(st.history.created[s]);
    RecordRoundTrip(st.history.created[s], Config(0, 0));
  }

  lemma ReadRecordValues(st: State, loc: Map, i: nat)
    requires Values(st, loc) && CanReadRecord(st, i) && st.clients[i].session in loc
    ensures Values(DoReadRecord(st, i), loc)
  {
    hide ParseRecord, PrintRecord;
    hide CreatedOk, JobsConfig, SessionsConfig, ProcsConfig, LinksConfig, IdsOk, RequestsOk, WinsOk, InvocationsOk;
    WonRecord(st, loc, i);
    ClientValues(st, loc, i, DoReadRecord(st, i).clients[i]);
  }

  lemma ReserveValues(st: State, loc: Map, i: nat, p: Text)
    requires Values(st, loc) && CanReserveFree(st, i, p)
    ensures Values(DoReserveFree(st, i, p), loc)
  {
    hide CreatedOk, JobsConfig, SessionsConfig, ProcsConfig, LinksConfig, IdsOk, RequestsOk, WinsOk, InvocationsOk;
    var st' := DoReserveFree(st, i, p);
    JobFact(st.clients, st.history.created, i);
    JobsSet(st.clients, st.history.created, i, st'.clients[i]);
    ProcsSet(st.tables.processes, st.history.created, p, st'.tables.processes[p]);
    IdsKeep(st.history, st.tables.processes, st.names, st'.history, st'.tables.processes, st'.names, {});
    RequestsSame(st.tables, st'.tables, st.history, st'.history);
    InvocationsSame(st.tables, st'.tables, st.history, st'.history);
  }

  lemma FindNoFreeValues(st: State, loc: Map, i: nat)
    requires Values(st, loc) && CanFindNoFree(st, i)
    ensures Values(DoFindNoFree(st, i), loc)
  {
    hide CreatedOk, JobsConfig, SessionsConfig, ProcsConfig, LinksConfig, IdsOk, RequestsOk, WinsOk, InvocationsOk;
    JobFact(st.clients, st.history.created, i);
    ClientValues(st, loc, i, NoFree(st.clients[i].job));
  }

  lemma AddProcessValues(st: State, loc: Map, i: nat, p: Text)
    requires Values(st, loc) && CanAddProcess(st, i, p) && p !in st.tables.processes
    ensures Values(DoAddProcess(st, i, p), loc)
  {
    hide CreatedOk, JobsConfig, SessionsConfig, ProcsConfig, LinksConfig, IdsOk, RequestsOk, WinsOk, InvocationsOk;
    var st' := DoAddProcess(st, i, p);
    JobFact(st.clients, st.history.created, i);
    JobsSet(st.clients, st.history.created, i, st'.clients[i]);
    ProcsSet(st.tables.processes, st.history.created, p, st'.tables.processes[p]);
    LinksSetConfig(st.links, st.history.created, p, st'.links[p]);
    IdsKeep(st.history, st.tables.processes, st.names, st'.history, st'.tables.processes, st'.names, {p});
    RequestsSame(st.tables, st'.tables, st.history, st'.history);
    InvocationsSame(st.tables, st'.tables, st.history, st'.history);
    WinsHistory(st.history, loc, st'.history);
  }

  lemma PlaceValues(st: State, loc: Map, i: nat)
    requires Values(st, loc) && CanPlace(st, i) && At(loc, st.clients[i].job.session, Claimed(i))
    requires forall q :: q in st.tables.processes ==> st.clients[i].job.session !in st.tables.processes[q].sessions
    ensures Values(DoPlace(st, i), Placing(st, loc, i))
  {
    hide CreatedOk, JobsConfig, SessionsConfig, ProcsConfig, LinksConfig, IdsOk, RequestsOk, WinsOk, InvocationsOk;
    var Reserved(job, p, existing) := st.clients[i];
    var s, st', created := job.session, DoPlace(st, i), st.history.created;
    var procs, procs' := st.tables.processes, st'.tables.processes;
    JobFact(st.clients, created, i);
    JobsSet(st.clients, created, i, st'.clients[i]);
    SessionsSet(st.tables.sessions, created, s, st'.tables.sessions[s]);
    SentFact(procs, created, p);
    SentMore(procs[p].sent, created, [Request(s, job.config.maxFunctions, job.config.memory)]);
    ProcsSet(procs, created, p, procs'[p]);
    LinkConfigFact(st.links, created, p);
    LinksSetConfig(st.links, created, p, st.links[p].(stage := Spawned));
    CreatedMove(created, st.records, loc, s, Placing(st, loc, i)[s]);
    IdsKeep(st.history, procs, st.names, st'.history, procs', st'.names, {});
    WinsMove(st.history, loc, s, Placing(st, loc, i)[s]);
    WinsHistory(st.history, Placing(st, loc, i), st'.history);
    RequestsPlace(st.tables, st.history, p, s, job.config, job.swapIn, job.inv, existing, st'.history);
    InvocationsPlace(st.tables, st.history, p, s, job.config, job.swapIn, job.inv, existing, st'.history);
  }

  lemma AttachValues(st: State, loc: Map, p: Text)
    requires Values(st, loc) && CanAttach(st, p)
    ensures Values(DoAttach(st, p), loc)
  {
    hide CreatedOk, JobsConfig, SessionsConfig, ProcsConfig, LinksConfig, IdsOk, RequestsOk, WinsOk, InvocationsOk;
    var st' := DoAttach(st, p);
    ProcsSet(st.tables.processes, st.history.created, p, st'.tables.processes[p]);
    LinkConfigFact(st.links, st.history.created, p);
    LinksSetConfig(st.links, st.history.created, p, st'.links[p]);
    IdsKeep(st.history, st.tables.processes, st.names, st'.history, st'.tables.processes, st'.names, {});
    RequestsSame(st.tables, st'.tables, st.history, st'.history);
    InvocationsSame(st.tables, st'.tables, st.history, st'.history);
  }

  lemma IdentifyValues(st: State, loc: Map, p: Text)
    requires Values(st, loc) && CanIdentify(st, p) && st.tables.processes[p].connected
    requires ListsOk(st.tables.processes, loc) && Shift(loc, Identifying(st, loc, p), p)
    ensures Values(DoIdentify(st, p), Identifying(st, loc, p))
  {
    var procs, list, created := st.tables.processes, st.tables.processes[p].sessions, st.history.created;
    var st', loc' := DoIdentify(st, p), Identifying(st, loc, p);
    hide ListsOk, NoDup, RequestAll, Identifying, Pending, Mark;
    hide CreatedOk, JobsConfig, SessionsConfig, ProcsConfig, LinksConfig, IdsOk, RequestsOk, WinsOk, InvocationsOk;
    Moves.ListFact(procs, loc, p);
    forall q, x | q in procs && q != p && x in procs[q].sessions ensures x !in list {
      Moves.ListFact(procs, loc, q);
    }
    RequestAllEffect(st.tables, p, list);
    SessionsMark(st.tables.sessions, created, list);
    SentFact(procs, created, p);
    PendingConfig(st.tables.sessions, created, list);
    SentMore(procs[p].sent, created, Pending(st.tables.sessions, list));
    ProcsSet(procs, created, p, st'.tables.processes[p]);
    LinkConfigFact(st.links, created, p);
    LinksSetConfig(st.links, created, p, st'.links[p]);
    ShiftCreated(created, st.records, loc, loc', p);
    IdsKeep(st.history, procs, st.names, st'.history, st'.tables.processes, st'.names, {});
    RequestsIdentify(st.tables, st.history, p);
    WinsShift(st.history, loc, loc', p);
    MarkInvocations(st.tables, st.history, list, st'.tables);
  }

  lemma ShiftCreated(created: map<Text, Config>, records: map<Text, Text>, loc: Map, loc': Map, p: Text)
    requires CreatedOk(created, records, loc) && Shift(loc, loc', p)
    ensures CreatedOk(created, records, loc')
  {
  }

  lemma MarkInvocations(t: Tables, h: History, list: seq<Text>, t': Tables)
    requires InvocationsOk(t, h) && t'.sessions == Mark(t.sessions, list)
    ensures InvocationsOk(t', h)
  {
    InvocationsSame(t, t', h, h);
  }

  lemma DrainValues(st: State, loc: Map, s: Text)
    requires Values(st, loc)
    ensures Values(DoDrain(st, s), loc)
  {
    hide CreatedOk, JobsConfig, SessionsConfig, ProcsConfig, LinksConfig, IdsOk, RequestsOk, WinsOk, InvocationsOk;
    var st' := DoDrain(st, s);
    if s in st.tables.sessions {
      SessionFact(st.tables.sessions, st.history.created, s);
      SessionsSet(st.tables.sessions, st.history.created, s, st'.tables.sessions[s]);
      RequestsSame(st.tables, st'.tables, st.history, st'.history);
      InvocationsSame(st.tables, st'.tables, st.history, st'.history);
    }
  }

  lemma SessionFact(sessions: map<Text, SessionInfo>, created: map<Text, Config>, s: Text)
    requires SessionsConfig(sessions, created) && s in sessions
    ensures Matches(s, sessions[s].maxFunctions, sessions[s].memory, created)
  {
  }

  /** A change of one link, and the move of one session that it may come with. */
  lemma LinkValues(st: State, loc: Map, p: Text, l: Link)
    requires Values(st, loc) && LinkConfig(l, st.history.created)
    ensures Values(SetLink(st, p, l), loc)
  {
    hide CreatedOk, JobsConfig, SessionsConfig, ProcsConfig, LinksConfig, IdsOk, RequestsOk, WinsOk, InvocationsOk;
    LinksSetConfig(st.links, st.history.created, p, l);
  }

  lemma MoveValues(st: State, loc: Map, s: Text, to: Loc)
    requires Values(st, loc) && s in loc && !loc[s].Swapped? && !to.Swapped?
    ensures Values(st, loc[s := to])
  {
    hide CreatedOk, JobsConfig, SessionsConfig, ProcsConfig, LinksConfig, IdsOk, RequestsOk, WinsOk, InvocationsOk;
    CreatedMove(st.history.created, st.records, loc, s, to);
    WinsMove(st.history, loc, s, to);
  }

  lemma AllocateValues(st: State, loc: Map, p: Text, o: Outcome)
    requires Values(st, loc) && CanAllocate(st, p, o)
    requires !(|st.links[p].forks| >= AsSize(st.links[p].maxSessions))
    requires !Hosts(st.links[p].forks, st.tables.processes[p].sent[st.links[p].taken].session)
    ensures Values(DoAllocate(st, p, o), loc)
  {
    hide Hosts;
    hide CreatedOk, JobsConfig, SessionsConfig, ProcsConfig, LinksConfig, IdsOk, RequestsOk, WinsOk, InvocationsOk;
    var l, created := st.links[p], st.history.created;
    var r := st.tables.processes[p].sent[l.taken];
    SentFact(st.tables.processes, created, p);
    LinkConfigFact(st.links, created, p);
    assert Matches(r.session, r.maxFunctions, r.memory, created);
    AllocateConfig(l, created, Forked(r, o), DoAllocate(st, p, o).links[p].reply.value);
    LinkValues(st, loc, p, DoAllocate(st, p, o).links[p]);
  }

  lemma RemoveValues(st: State, loc: Map, j: nat)
    requires Values(st, loc) && CanRemove(st, j) && NoDup(st.tables.processes[st.closers[j].process].sessions)
    requires st.closers[j].session in st.tables.sessions && st.tables.sessions[st.closers[j].session].isAllocated
    ensures Values(DoRemove(st, j), loc)
  {
    hide NoDup, IndexOf;
    hide CreatedOk, JobsConfig, SessionsConfig, ProcsConfig, LinksConfig, IdsOk, RequestsOk, WinsOk, InvocationsOk;
    var Received(p, s) := st.closers[j];
    var st' := DoRemove(st, j);
    assert st.tables.processes[p := st'.tables.processes[p]] == st'.tables.processes;
    ProcsSet(st.tables.processes, st.history.created, p, st'.tables.processes[p]);
    IdsKeep(st.history, st.tables.processes, st.names, st'.history, st'.tables.processes, st'.names, {});
    RequestsRemove(st.tables, st.history, p, s);
    InvocationsSame(st.tables, st'.tables, st.history, st'.history);
  }

  lemma ParkWins(h: History, loc: Map, s: Text, j: nat, g: Text)
    requires WinsOk(h, loc) && At(loc, s, Leaving(j))
    ensures WinsOk(h.(parkings := h.parkings + multiset{s}), loc[s := Swapped(g)])
  {
  }

  lemma ParkValues(st: State, loc: Map, j: nat)
    requires Values(st, loc) && CanPark(st, j) && At(loc, st.closers[j].session, Leaving(j))
    ensures Values(DoPark(st, j),
                   loc[st.closers[j].session := Swapped(st.tables.processes[st.closers[j].process].globalId)])
  {
    hide CreatedOk, JobsConfig, SessionsConfig, ProcsConfig, LinksConfig, IdsOk, RequestsOk, WinsOk, InvocationsOk;
    var s, st' := st.closers[j].session, DoPark(st, j);
    var g := st.tables.processes[st.closers[j].process].globalId;
    CreatedMove(st.history.created, st.records, loc, s, Swapped(g));
    IdsKeep(st.history, st.tables.processes, st.names, st'.history, st'.tables.processes, st'.names, {});
    ParkWins(st.history, loc, s, j, g);
    RequestsSame(st.tables, st.tables, st.history, st'.history);
    InvocationsSame(st.tables, st.tables, st.history, st'.history);
  }
}
