/** Identification of a process: the loop over its list writes one request for every session that was
    not allocated yet, and marks exactly those. */
module Identification {
  import opened Bytes
  import opened SessionRecord
  import opened MemorySize
  import opened Tables
  import opened RuntimeSessions
  import opened Protocol
  import opened Invariant
  import opened Moves

  predicate Unallocated(sessions: map<Text, SessionInfo>, s: Text) { s in sessions && !sessions[s].isAllocated }

  function RequestFor(sessions: map<Text, SessionInfo>, s: Text): (r: Request)
    requires s in sessions
  {
    Request(s, sessions[s].maxFunctions, sessions[s].memory)
  }

  function Pending(sessions: map<Text, SessionInfo>, list: seq<Text>): (r: seq<Request>) {
    if list == [] then []
    else (if Unallocated(sessions, list[0]) then [RequestFor(sessions, list[0])] else []) + Pending(sessions, list[1..])
  }

  function Mark(sessions: map<Text, SessionInfo>, list: seq<Text>): (r: map<Text, SessionInfo>) {
    map s | s in sessions :: if s in list then sessions[s].(isAllocated := true) else sessions[s]
  }

  lemma {:induction false} PendingFrame(a: map<Text, SessionInfo>, b: map<Text, SessionInfo>, list: seq<Text>)
    requires a.Keys == b.Keys && forall s :: s in list && s in a ==> a[s] == b[s]
    ensures Pending(a, list) == Pending(b, list)
  {
    if list != [] {
      PendingFrame(a, b, list[1..]);
    }
  }

  /** The whole effect of the loop. */
  lemma {:induction false} RequestAllEffect(t: Tables, p: Text, list: seq<Text>)
    requires p in t.processes && t.processes[p].connected && NoDup(list)
    ensures RequestAll(t, p, list).sessions == Mark(t.sessions, list)
    ensures RequestAll(t, p, list).processes
      == t.processes[p := t.processes[p].(sent := t.processes[p].sent + Pending(t.sessions, list))]
    decreases |list|
  {
    if list == [] {
      assert t.processes[p].sent + [] == t.processes[p].sent;
    } else {
      var t1 := RequestOne(t, p, list[0]);
      RequestAllEffect(t1, p, list[1..]);
      assert list[0] !in list[1..];
      PendingFrame(t1.sessions, t.sessions, list[1..]);
      assert list == [list[0]] + list[1..];
      var first := if Unallocated(t.sessions, list[0]) then [RequestFor(t.sessions, list[0])] else [];
      assert t1.processes[p].sent == t.processes[p].sent + first;
      assert t.processes[p].sent + first + Pending(t.sessions, list[1..])
          == t.processes[p].sent + Pending(t.sessions, list);
    }
  }

  lemma {:induction false} PendingElements(sessions: map<Text, SessionInfo>, list: seq<Text>)
    requires NoDup(list)
    ensures forall k :: 0 <= k < |Pending(sessions, list)| ==>
      var r := Pending(sessions, list)[k];
      r.session in list && Unallocated(sessions, r.session) && r == RequestFor(sessions, r.session)
    ensures forall k, l :: 0 <= k < l < |Pending(sessions, list)| ==>
      Pending(sessions, list)[k].session != Pending(sessions, list)[l].session
  {
    if list != [] {
      PendingElements(sessions, list[1..]);
      assert list[0] !in list[1..];
    }
  }

  // ----- the places of sessions

  /** Some sessions waiting on p are now asked for. */
  ghost predicate Shift(loc: Map, loc': Map, p: Text) {
    && loc.Keys == loc'.Keys
    && forall s :: s in loc ==> loc'[s] == loc[s] || (loc[s] == Listed(p, Waiting) && loc'[s] == Listed(p, Phase.Asked))
  }

  lemma ClientsShift(clients: map<nat, Client>, loc: Map, loc': Map, p: Text)
    requires ClientsOk(clients, loc) && Shift(loc, loc', p)
    ensures ClientsOk(clients, loc')
  {
  }

  lemma ListsShift(procs: map<Text, ProcessInfo>, loc: Map, loc': Map, p: Text, pr: ProcessInfo)
    requires ListsOk(procs, loc) && Shift(loc, loc', p) && p in procs && pr.sessions == procs[p].sessions
    ensures ListsOk(procs[p := pr], loc')
  {
  }

  lemma SwappedShift(swapped: set<(Text, Text)>, loc: Map, loc': Map, p: Text)
    requires SwappedOk(swapped, loc) && Shift(loc, loc', p)
    ensures SwappedOk(swapped, loc')
  {
  }

  lemma ClosersShift(closers: map<nat, Closer>, procs: map<Text, ProcessInfo>, procs': map<Text, ProcessInfo>,
                     loc: Map, loc': Map, p: Text)
    requires ClosersOk(closers, procs, loc) && Shift(loc, loc', p) && procs.Keys <= procs'.Keys
    ensures ClosersOk(closers, procs', loc')
  {
  }

  lemma LinkShift(q: Text, l: Link, sent: seq<Request>, loc: Map, loc': Map, p: Text)
    requires LinkOk(q, l, sent, loc) && Shift(loc, loc', p)
    ensures LinkOk(q, l, sent, loc')
  {
  }

  lemma LinkRequests(p: Text, l: Link, sent: seq<Request>, loc: Map, loc': Map, more: seq<Request>, stage: Stage)
    requires LinkOk(p, l, sent, loc) && Shift(loc, loc', p)
    requires forall k :: 0 <= k < |more| ==>
      At(loc, more[k].session, Listed(p, Waiting)) && At(loc', more[k].session, Listed(p, Phase.Asked))
    requires forall k, j :: 0 <= k < j < |more| ==> more[k].session != more[j].session
    ensures LinkOk(p, l.(stage := stage), sent + more, loc')
  {
    var all := sent + more;
    assert PendingOk(p, all, l.taken, loc') by {
      forall k | l.taken <= k < |all| ensures At(loc', all[k].session, Listed(p, Phase.Asked)) {
      }
      forall k, j | l.taken <= k < j < |all| ensures all[k].session != all[j].session {
        if k < |sent| <= j {
          assert At(loc, sent[k].session, Listed(p, Phase.Asked));
        }
      }
    }
  }

  lemma LinksShift(links: map<Text, Link>, procs: map<Text, ProcessInfo>, loc: Map, loc': Map, p: Text, l: Link,
      pr: ProcessInfo)
    requires LinksOk(links, procs, loc) && Shift(loc, loc', p) && LinkOk(p, l, pr.sent, loc')
    ensures LinksOk(links[p := l], procs[p := pr], loc')
  {
    forall q | q in links && q != p ensures LinkOk(q, links[q], procs[q].sent, loc') {
      LinkShift(q, links[q], procs[q].sent, loc, loc', p);
    }
  }

  lemma IdentifyingShifts(st: State, loc: Map, p: Text)
    requires CanIdentify(st, p) && NoDup(st.tables.processes[p].sessions)
    requires forall s :: s in st.tables.processes[p].sessions <==> On(loc, s, p)
    requires FlagsOk(st.tables.sessions, st.links, loc)
    ensures Shift(loc, Identifying(st, loc, p), p)
    ensures
      var more := Pending(st.tables.sessions, st.tables.processes[p].sessions);
      && (forall k :: 0 <= k < |more| ==> At(loc, more[k].session, Listed(p, Waiting))
                                          && At(Identifying(st, loc, p), more[k].session, Listed(p, Phase.Asked)))
      && (forall k, j :: 0 <= k < j < |more| ==> more[k].session != more[j].session)
  {
    PendingElements(st.tables.sessions, st.tables.processes[p].sessions);
  }

  lemma IdentifyKeeps(st: State, loc: Map, p: Text)
    requires Places(st, loc) && CanIdentify(st, p) && st.tables.processes[p].connected
    requires FlagsOk(st.tables.sessions, st.links, loc)
    ensures Places(DoIdentify(st, p), Identifying(st, loc, p))
  {
    hide ClientsOk, ListsOk, SwappedOk, ClosersOk, LinksOk, LinkOk, FlagsOk, NoDup, Shift, Identifying, RequestAll;
    var procs, list := st.tables.processes, st.tables.processes[p].sessions;
    var st', loc' := DoIdentify(st, p), Identifying(st, loc, p);
    var more := Pending(st.tables.sessions, list);
    ListFact(procs, loc, p);
    LinkFact(st.links, procs, loc, p);
    IdentifyingShifts(st, loc, p);
    RequestAllEffect(st.tables, p, list);
    LinkRequests(p, st.links[p], procs[p].sent, loc, loc', more, Live);
    ClientsShift(st.clients, loc, loc', p);
    ListsShift(procs, loc, loc', p, st'.tables.processes[p]);
    SwappedShift(st.swapped, loc, loc', p);
    ClosersShift(st.closers, procs, st'.tables.processes, loc, loc', p);
    LinksShift(st.links, procs, loc, loc', p, st'.links[p], st'.tables.processes[p]);
  }
}
