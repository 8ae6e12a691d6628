/** Two runs that show that neither condition of AliveSets can be dropped: handlers of one session that overlap, and
    a closure for a process of another global id. In the second no two handlers overlap at all. */
module Overlaps {
  import opened Bytes
  import opened SessionRecord
  import opened MemorySize
  import opened Tables
  import opened RuntimeSessions
  import opened Protocol
  import opened AliveSets

  predicate ActiveClient(st: State, i: nat) { i in st.clients && !st.clients[i].Replied? }

  predicate ActiveCloser(st: State, j: nat) { j in st.closers && !st.closers[j].Finished? }

  ghost predicate Idle(st: State) {
    (forall i :: !ActiveClient(st, i)) && (forall j :: !ActiveCloser(st, j))
  }

  /** A handler acts only when no other handler at all is under way. */
  ghost predicate Serial(st: State, a: Action) {
    IsClient(a) || IsCloser(a) ==>
      && (forall i :: ActiveClient(st, i) ==> OfClient(a, i))
      && (forall j :: ActiveCloser(st, j) ==> OfCloser(a, j))
  }

  /** Runs of the given global processes whose handlers do not overlap. */
  ghost predicate SerialRun(acts: seq<Action>, globals: set<Text>) {
    Exec(acts).Some? &&
    (acts != [] ==>
      var last := acts[|acts| - 1];
      && SerialRun(acts[..|acts| - 1], globals)
      && Serial(Exec(acts[..|acts| - 1]).value, last)
      && (last.AddGlobal? ==> last.g in globals))
  }

  /** Such runs keep the handlers of every session apart. */
  lemma {:induction false} SerialIsApart(acts: seq<Action>, globals: set<Text>, s: Text)
    requires SerialRun(acts, globals)
    ensures ApartRun(acts, s)
  {
    if acts != [] {
      var before, a := acts[..|acts| - 1], acts[|acts| - 1];
      SerialIsApart(before, globals, s);
      SerialApart(Exec(before).value, a, s) by { hide Serial, Enabled, Apply; }
    }
  }

  lemma SerialApart(st: State, a: Action, s: Text)
    requires Enabled(st, a) && Serial(st, a)
    ensures Apart(st, a, s)
  {
    hide Enabled, OfClient, OfCloser;
    forall i | Works(st, i, s) ensures ActiveClient(st, i) {
    }
    forall j | Closes(st, j, s) ensures ActiveCloser(st, j) {
    }
  }

  ghost predicate Freely(st: State, globals: set<Text>) {
    exists acts :: Exec(acts) == Some(st) && forall a: Action :: a in acts && a.AddGlobal? ==> a.g in globals
  }

  ghost predicate Serially(st: State, globals: set<Text>) {
    exists acts :: Exec(acts) == Some(st) && SerialRun(acts, globals)
  }

  /** How a state was reached: with handlers that do not overlap, or in any way. */
  ghost predicate Reached(st: State, globals: set<Text>, serial: bool) {
    if serial then Serially(st, globals) else Freely(st, globals)
  }

  lemma Start(globals: set<Text>, serial: bool)
    ensures Reached(INIT, globals, serial)
  {
    assert Exec([]) == Some(INIT) && SerialRun([], globals);
  }

  /** Client handler i, or closure handler 0, is the only one that may act here. */
  ghost predicate Turn(st: State, a: Action) {
    && (IsClient(a) ==> OnlyClient(st, ClientIndex(a)))
    && (IsCloser(a) ==> a.j == 0 && OnlyCloser(st))
  }

  /** One more action. */
  lemma Next(st: State, globals: set<Text>, serial: bool, a: Action)
    requires Reached(st, globals, serial) && Enabled(st, a) && (a.AddGlobal? ==> a.g in globals)
    requires serial ==> Turn(st, a)
    ensures Reached(Apply(st, a), globals, serial)
  {
    hide Enabled, Apply, Serial, Turn;
    if serial {
      TurnIsSerial(st, a);
    }
    var acts :| Exec(acts) == Some(st) &&
      if serial then SerialRun(acts, globals) else forall b: Action :: b in acts && b.AddGlobal? ==> b.g in globals;
    var more := acts + [a];
    assert more[..|more| - 1] == acts;
    assert Exec(more) == Some(Apply(st, a));
  }

  lemma TurnIsSerial(st: State, a: Action)
    requires Turn(st, a)
    ensures Serial(st, a)
  {
  }

  function Id(b: byte): (r: Text) { seq(16, _ => b) }

  predicate IsId(t: Text) { |t| == 16 && NulFree(t) }

  lemma Ids(a: byte, b: byte)
    requires a != b && a != 0
    ensures Id(a) != Id(b) && IsId(Id(a))
  {
    assert Id(a)[0] == a && Id(b)[0] == b;
  }

  const CONFIG := Config(1, 1)

  /** Only handler 0 of the closures is under way. */
  ghost predicate OnlyCloser(st: State) {
    (forall i :: i in st.clients ==> st.clients[i].Replied?) && st.closers.Keys <= {0}
  }

  ghost predicate OnlyClient(st: State, i: nat) {
    st.closers == map[] && forall k :: k in st.clients && k != i ==> st.clients[k].Replied?
  }

  /** Handler i creates session s for the global process g. */
  lemma CreateSession(st: State, gs: set<Text>, serial: bool, i: nat, g: Text, s: Text) returns (st': State)
    requires Reached(st, gs, serial) && OnlyClient(st, i) && i !in st.clients && g in gs
    requires IsId(g) && IsId(s) && g != s && g !in st.history.uuids && s !in st.history.uuids
    ensures Reached(st', gs, serial) && st'.clients == st.clients[i := Ready(Job(g, s, CONFIG, false, None))]
    ensures st'.history.uuids == st.history.uuids + {g, s}
    ensures st' == st.(names := st'.names, history := st'.history, clients := st'.clients, records := st'.records)
  {
    hide Reached, OnlyCloser, PrintRecord, NulFree;
    Next(st, gs, serial, Action.AddGlobal(g));
    var st1 := Apply(st, AddGlobal(g));
    Next(st1, gs, serial, Action.Begin(i, g, [], CONFIG, None));
    var st2 := DoBegin(st1, i, g, [], CONFIG, None);
    Next(st2, gs, serial, Action.Create(i, s));
    st' := DoCreate(st2, i, s);
  }

  /** Handler i, which found no free process, adds p and places its session there. */
  lemma PlaceOnNew(st: State, gs: set<Text>, serial: bool, i: nat, g: Text, s: Text, p: Text) returns (st': State)
    requires Reached(st, gs, serial) && OnlyClient(st, i) && i in st.clients
    requires st.clients[i] == Ready(Job(g, s, CONFIG, false, None))
    requires st.tables == Tables(map[], map[]) && st.links == map[] && IsId(p) && p !in st.history.uuids
    ensures Reached(st', gs, serial) && st'.clients == st.clients[i := Placed(g, s)]
    ensures st'.history.uuids == st.history.uuids + {p}
    ensures st' == st.(clients := st'.clients, history := st'.history, links := st'.links, tables := st'.tables)
    ensures st'.links == map[p := Link(Spawned, 0, 4, [], None, multiset{}, [])]
    ensures st'.tables == Tables(map[p := ProcessInfo(g, 1, 4, false, [], [s])],
                                 map[s := SessionInfo(1, 1, false, false, [], [])])
  {
    hide Reached, OnlyCloser, OnlyClient;
    var st2 := AddNew(st, gs, serial, i, p);
    st' := PlaceNext(st2, gs, serial, i);
    assert st'.tables.processes[p].sessions == [s];
    assert st'.tables.sessions[s].queue == [];
  }

  lemma PlaceNext(st: State, gs: set<Text>, serial: bool, i: nat) returns (st': State)
    requires Reached(st, gs, serial) && CanPlace(st, i) && !st.clients[i].existing
    requires OnlyClient(st, i)
    ensures Reached(st', gs, serial)
    ensures
      var p, job := st.clients[i].process, st.clients[i].job;
      && st' == st.(clients := st.clients[i := Placed(job.global, job.session)], history := st'.history,
                    links := st.links[p := st.links[p].(stage := Spawned)],
                    tables := Place(st.tables, p, job.session, job.config, job.swapIn, job.inv, false))
      && st'.history.uuids == st.history.uuids
  {
    hide Reached, OnlyCloser, Place, Drops, Submitted;
    Next(st, gs, serial, Action.PlaceSession(i));
    st' := DoPlace(st, i);
  }

  lemma AddNew(st: State, gs: set<Text>, serial: bool, i: nat, p: Text) returns (st': State)
    requires Reached(st, gs, serial) && OnlyClient(st, i) && i in st.clients && st.clients[i].Ready?
    requires st.tables == Tables(map[], map[]) && st.links == map[] && IsId(p) && p !in st.history.uuids
    ensures Reached(st', gs, serial) && OnlyClient(st', i)
    ensures st' == DoAddProcess(DoFindNoFree(st, i), i, p)
  {
    hide Reached, OnlyCloser, NulFree;
    Next(st, gs, serial, Action.FindNoFree(i));
    var st1 := DoFindNoFree(st, i);
    Next(st1, gs, serial, Action.AddProcess(i, p));
    st' := DoAddProcess(st1, i, p);
  }

  lemma RequestSingle(t: Tables, p: Text, s: Text)
    requires p in t.processes && s in t.sessions && !t.sessions[s].isAllocated && t.processes[p].connected
    requires t.processes[p].sent == []
    ensures RequestAll(t, p, [s])
      == Tables(t.processes[p := t.processes[p].(
                  sent := [Request(s, t.sessions[s].maxFunctions, t.sessions[s].memory)])],
                t.sessions[s := t.sessions[s].(isAllocated := true)])
  {
    assert [s][1..] == [];
    assert RequestAll(t, p, [s]) == RequestAll(RequestOne(t, p, s), p, []) == RequestOne(t, p, s);
    var r := Request(s, t.sessions[s].maxFunctions, t.sessions[s].memory);
    assert RequestOne(t, p, s).processes[p].sent == [] + [r] == [r];
  }

  /** Process p connects and identifies itself. */
  lemma Connect(st: State, gs: set<Text>, serial: bool, g: Text, s: Text, p: Text) returns (st': State)
    requires Reached(st, gs, serial)
    requires st.links == map[p := Link(Spawned, 0, 4, [], None, multiset{}, [])]
    requires st.tables == Tables(map[p := ProcessInfo(g, 1, 4, false, [], [s])],
                                 map[s := SessionInfo(1, 1, false, false, [], [])])
    ensures Reached(st', gs, serial) && st' == st.(links := st'.links, tables := st'.tables)
    ensures st'.links == map[p := Link(Live, 0, 4, [], None, multiset{}, [])]
    ensures st'.tables == Tables(map[p := ProcessInfo(g, 1, 4, true, [Request(s, 1, 1)], [s])],
                                 map[s := SessionInfo(1, 1, false, true, [], [])])
  {
    hide Reached;
    var st2 := AnnounceAndAttach(st, gs, serial, p);
    var t2 := Tables(map[p := ProcessInfo(g, 1, 4, true, [], [s])], st.tables.sessions);
    assert st2.tables == t2;
    RequestSingle(t2, p, s);
    st' := IdentifyNext(st2, gs, serial, p, [s]);
  }

  lemma IdentifyNext(st: State, gs: set<Text>, serial: bool, p: Text, list: seq<Text>) returns (st': State)
    requires Reached(st, gs, serial) && CanIdentify(st, p) && st.tables.processes[p].sessions == list
    ensures Reached(st', gs, serial)
    ensures st' == st.(links := st.links[p := st.links[p].(stage := Live)], tables := RequestAll(st.tables, p, list))
  {
    hide Reached, OnlyCloser, OnlyClient, RequestAll;
    Next(st, gs, serial, Action.Identify(p));
    st' := DoIdentify(st, p);
  }

  lemma AnnounceAndAttach(st: State, gs: set<Text>, serial: bool, p: Text) returns (st': State)
    requires Reached(st, gs, serial) && CanAnnounce(st, p) && p in st.tables.processes
    ensures Reached(st', gs, serial)
    ensures st' == st.(links := st.links[p := st.links[p].(stage := Attached)], tables := Attach(st.tables, p))
  {
    hide Reached, OnlyCloser, OnlyClient;
    Next(st, gs, serial, Action.Announce(p));
    var st1 := DoAnnounce(st, p);
    Next(st1, gs, serial, Action.AttachProcess(p));
    st' := DoAttach(st1, p);
  }

  lemma FindLast(forks: seq<Fork>, f: Fork)
    requires forall k :: 0 <= k < |forks| ==> forks[k].pid != f.pid
    ensures FindPid(forks + [f], f.pid) == |forks| && FindPid(forks, f.pid) == |forks|
  {
    assert (forks + [f])[|forks|] == f;
  }

  /** The runtime process p starts the child of the next request; the child ends, which is reported. */
  lemma StartAndEnd(st: State, gs: set<Text>, serial: bool, p: Text, r: Request) returns (st': State)
    requires Reached(st, gs, serial) && p in st.tables.processes && p in st.links
    requires
      var l := st.links[p];
      && l.reply.None? && l.up == [] && l.closing == multiset{}
      && |l.forks| < AsSize(l.maxSessions) && !Hosts(l.forks, r.session)
      && (forall k :: 0 <= k < |l.forks| ==> l.forks[k].pid != 7)
      && l.taken < |st.tables.processes[p].sent| && st.tables.processes[p].sent[l.taken] == r
    ensures Reached(st', gs, serial) && p in st'.links && st' == st.(links := st.links[p := st'.links[p]])
    ensures st'.links[p].stage == st.links[p].stage
    ensures st'.links[p].up == [Closed(Closure(r.session, SegmentBytes(r.memory)))]
  {
    hide Reached, OnlyCloser, OnlyClient, SegmentBytes, Hosts, FindPid;
    var l, c := st.links[p], Closure(r.session, SegmentBytes(r.memory));
    FindLast(l.forks, Forked(r, Child(7)));
    Next(st, gs, serial, Action.AllocateSession(p, Child(7)));
    var st1 := DoAllocate(st, p, Child(7));
    assert st1.links[p].forks == l.forks + [Forked(r, Child(7))];
    st' := EndChild(st1, gs, serial, p, c);
  }

  /** The child of the last entry ends, and the deletion thread reports it. */
  lemma EndChild(st: State, gs: set<Text>, serial: bool, p: Text, c: Closure) returns (st': State)
    requires Reached(st, gs, serial) && p in st.links && st.links[p].closing == multiset{} && st.links[p].up == []
    requires FindPid(st.links[p].forks, 7) < |st.links[p].forks|
    requires Closing(st.links[p].forks[FindPid(st.links[p].forks, 7)], true) == c
    ensures Reached(st', gs, serial) && p in st'.links && st' == st.(links := st.links[p := st'.links[p]])
    ensures st'.links[p].stage == st.links[p].stage && st'.links[p].up == [Closed(c)]
  {
    hide Reached, OnlyCloser, OnlyClient, FindPid;
    Next(st, gs, serial, Action.DeleteSession(p, 7, true));
    var st1 := DoDelete(st, p, 7, true);
    Next(st1, gs, serial, Action.ReportClosure(p, c));
    st' := DoReport(st1, p, c);
  }

  /** The control plane handles the closure that is first in line on the connection of p. */
  lemma HandleClosure(st: State, gs: set<Text>, serial: bool, g: Text, p: Text, s: Text) returns (st': State)
    requires Reached(st, gs, serial) && p in st.tables.processes && p in st.links && st.links[p].stage == Live
    requires |st.links[p].up| == 1 && st.links[p].up[0].Closed? && st.links[p].up[0].closure.session == s
    requires st.closers == map[] && st.tables.processes[p].globalId == g
    requires serial ==> OnlyCloser(st)
    ensures Reached(st', gs, serial) && st'.clients == st.clients && st'.closers == map[0 := Finished]
    ensures st'.swapped == st.swapped + {(g, s)} && st'.alive == st.alive - {(p, s), (g, s)}
  {
    hide Reached, OnlyClient, Remove, IndexOf;
    RemoveKeeps(st.tables, p, s);
    Next(st, gs, serial, Action.Take(p, 0));
    var st1 := DoTake(st, p, 0);
    Next(st1, gs, serial, Action.RemoveSession(0));
    st' := ParkRemoved(DoRemove(st1, 0), gs, serial, g, p, s);
  }

  lemma ParkRemoved(st: State, gs: set<Text>, serial: bool, g: Text, p: Text, s: Text) returns (st': State)
    requires Reached(st, gs, serial) && p in st.tables.processes && st.tables.processes[p].globalId == g
    requires st.closers == map[0 := Removed(p, s)] && (serial ==> OnlyCloser(st))
    ensures Reached(st', gs, serial) && st'.clients == st.clients && st'.closers == map[0 := Finished]
    ensures st'.swapped == st.swapped + {(g, s)} && st'.alive == st.alive - {(p, s), (g, s)}
  {
    hide Reached, OnlyClient;
    var st2 := UnmarkAndPark(st, gs, serial, p, s);
    Next(st2, gs, serial, Action.EraseAlive(0));
    st' := DoErase(st2, 0);
  }

  lemma UnmarkAndPark(st: State, gs: set<Text>, serial: bool, p: Text, s: Text) returns (st': State)
    requires Reached(st, gs, serial) && p in st.tables.processes
    requires st.closers == map[0 := Removed(p, s)] && (serial ==> OnlyCloser(st))
    ensures Reached(st', gs, serial) && st' == DoPark(DoUnmark(st, 0), 0)
  {
    hide Reached, OnlyClient;
    Next(st, gs, serial, Action.Unmark(0));
    var st1 := DoUnmark(st, 0);
    Next(st1, gs, serial, Action.Park(0));
    st' := DoPark(st1, 0);
  }

  lemma Mark(st: State, gs: set<Text>, serial: bool, i: nat) returns (st': State)
    requires Reached(st, gs, serial) && CanMarkAlive(st, i) && (serial ==> OnlyClient(st, i))
    ensures Reached(st', gs, serial) && st' == DoMarkAlive(st, i)
  {
    hide Reached;
    Next(st, gs, serial, Action.MarkAlive(i));
    st' := DoMarkAlive(st, i);
  }

  lemma AllIds()
    ensures forall a, b :: 1 <= a < b <= 5 ==> Id(a) != Id(b)
    ensures forall a :: 1 <= a <= 5 ==> IsId(Id(a))
  {
    forall a: byte, b: byte | 1 <= a < b <= 5 ensures Id(a) != Id(b) && IsId(Id(a)) {
      Ids(a, b);
    }
    Ids(5, 1);
  }

  /** The closure overtakes the mark: handler 0 marks the session alive after it was parked. In the end no
      handler is under way, and the only session is in both sets: no restore can ever win it. */
  lemma OverlapBreaksSets() returns (st: State, g: Text, s: Text)
    ensures Freely(st, {g}) && Idle(st)
    ensures (g, s) in st.alive && (g, s) in st.swapped
  {
    hide Freely, Exec;
    AllIds();
    g, s := Id(1), Id(2);
    var p := Id(3);
    hide Id, IsId;
    Start({g}, false);
    st := CreateSession(INIT, {g}, false, 0, g, s);
    st := PlaceOnNew(st, {g}, false, 0, g, s, p);
    st := Connect(st, {g}, false, g, s, p);
    st := StartAndEnd(st, {g}, false, p, Request(s, 1, 1));
    st := HandleClosure(st, {g}, false, g, p, s);
    st := Mark(st, {g}, false, 0);
  }

  /** With two global processes even handlers that do not overlap leave a session in both sets: it was
      created for h, placed on a process of g, and parked under g. */
  lemma TwoGlobalsBreakSets() returns (st: State, g: Text, h: Text, s: Text)
    ensures g != h && Serially(st, {g, h}) && Idle(st)
    ensures (h, s) in st.alive && (g, s) in st.swapped
  {
    hide Serially, Exec;
    AllIds();
    g, h, s := Id(1), Id(4), Id(5);
    var first, p := Id(2), Id(3);
    hide Id, IsId;
    st := TwoSessions(g, h, first, s, p);
    st := PlaceOnOld(st, {g, h}, g, h, first, s, p);
    st := Mark(st, {g, h}, true, 1);
    st := StartFirst(st, {g, h}, first, s, p);
    st := StartAndEnd(st, {g, h}, true, p, Request(s, 1, 1));
    st := HandleClosure(st, {g, h}, true, g, p, s);
  }

  /** The session of g is placed on p and marked; handler 1 has created the session of h. */
  lemma TwoSessions(g: Text, h: Text, first: Text, s: Text, p: Text) returns (st: State)
    requires IsId(g) && IsId(h) && IsId(first) && IsId(s) && IsId(p)
    requires g != h && g != first && g != s && g != p && h != first && h != s && h != p && first != s
      && first != p && s != p
    ensures Reached(st, {g, h}, true) && OnlyClient(st, 1) && st.swapped == {}
    ensures st.clients == map[0 := Replied(200), 1 := Ready(Job(h, s, CONFIG, false, None))]
    ensures st.links == map[p := Link(Live, 0, 4, [], None, multiset{}, [])]
    ensures st.tables == Tables(map[p := ProcessInfo(g, 1, 4, true, [Request(first, 1, 1)], [first])],
                                map[first := SessionInfo(1, 1, false, true, [], [])])
  {
    Start({g, h}, true) by { hide Exec; }
    hide Reached, IsId;
    st := CreateSession(INIT, {g, h}, true, 0, g, first);
    st := PlaceOnNew(st, {g, h}, true, 0, g, first, p);
    st := Connect(st, {g, h}, true, g, first, p);
    st := Mark(st, {g, h}, true, 0);
    st := CreateSession(st, {g, h}, true, 1, h, s);
  }

  /** get_free_process gives the session of h the process of g. */
  lemma PlaceOnOld(st: State, gs: set<Text>, g: Text, h: Text, first: Text, s: Text, p: Text) returns (st': State)
    requires Reached(st, gs, true) && first != s && OnlyClient(st, 1)
    requires st.clients == map[0 := Replied(200), 1 := Ready(Job(h, s, CONFIG, false, None))]
    requires st.links == map[p := Link(Live, 0, 4, [], None, multiset{}, [])]
    requires st.tables == Tables(map[p := ProcessInfo(g, 1, 4, true, [Request(first, 1, 1)], [first])],
                                 map[first := SessionInfo(1, 1, false, true, [], [])])
    ensures Reached(st', gs, true) && st'.clients == map[0 := Replied(200), 1 := Placed(h, s)]
    ensures st' == st.(clients := st'.clients, history := st'.history, tables := st'.tables)
    ensures st'.tables.processes
      == map[p := ProcessInfo(g, 2, 4, true, [Request(first, 1, 1), Request(s, 1, 1)], [first, s])]
  {
    hide Reached, OnlyCloser;
    Next(st, gs, true, Action.ReserveFree(1, p));
    var st1 := DoReserveFree(st, 1, p);
    Next(st1, gs, true, Action.PlaceSession(1));
    st' := DoPlace(st1, 1);
    assert st'.tables.processes[p].sessions == [first, s];
    assert st'.tables.processes[p].sent == [Request(first, 1, 1), Request(s, 1, 1)];
  }

  /** p takes the first request, gets no child for it, and its status is read. */
  lemma StartFirst(st: State, gs: set<Text>, first: Text, s: Text, p: Text) returns (st': State)
    requires Reached(st, gs, true) && first != s && st.closers == map[]
    requires st.clients == map[0 := Replied(200), 1 := Replied(200)]
    requires st.links == map[p := Link(Live, 0, 4, [], None, multiset{}, [])] && p in st.tables.processes
    requires st.tables.processes[p].sent == [Request(first, 1, 1), Request(s, 1, 1)]
    ensures Reached(st', gs, true) && st' == st.(links := st'.links)
    ensures st'.links == map[p := Link(Live, 1, 4, [Forked(Request(first, 1, 1), NoChild)], None, multiset{}, [])]
    ensures !Hosts(st'.links[p].forks, s)
  {
    hide Reached, OnlyClient;
    Next(st, gs, true, Action.AllocateSession(p, NoChild));
    var st1 := DoAllocate(st, p, NoChild);
    Next(st1, gs, true, Action.Reply(p));
    var st2 := DoReply(st1, p);
    Next(st2, gs, true, Action.Take(p, 0));
    st' := DoTake(st2, p, 0);
    assert st'.links[p].up == [];
    assert st'.links[p].forks == [Forked(Request(first, 1, 1), NoChild)];
  }
}
