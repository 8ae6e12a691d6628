/** Every action keeps the places of sessions consistent. Each proof hides what the parts of the
    invariant say and combines the lemmas of Moves. */
module StepPlaces {
  import opened Bytes
  import opened SessionRecord
  import opened MemorySize
  import opened Tables
  import opened RuntimeSessions
  import opened Protocol
  import opened Invariant
  import opened Moves

  lemma ClientOnly(st: State, loc: Map, i: nat, c: Client)
    requires Places(st, loc) && SameClaim(st.clients, i, c)
    ensures Places(SetClient(st, i, c), loc)
  {
    hide ClientsOk, ListsOk, SwappedOk, ClosersOk, LinksOk;
    ClientsKeep(st.clients, loc, i, c);
  }

  lemma CreateKeeps(st: State, loc: Map, i: nat, s: Text)
    requires Places(st, loc) && CanCreate(st, i, s) && s !in loc
    ensures Places(DoCreate(st, i, s), loc[s := Claimed(i)])
  {
    hide ClientsOk, ListsOk, SwappedOk, ClosersOk, LinksOk;
    var to := Claimed(i);
    ClientsTake(st.clients, loc, i, DoCreate(st, i, s).clients[i], s);
    ListsFrame(st.tables.processes, loc, s, to);
    SwappedFrame(st.swapped, loc, s, to);
    ClosersFrame(st.closers, st.tables.processes, st.tables.processes, loc, s, to);
    LinksFrame(st.links, st.tables.processes, loc, s, to);
  }

  lemma ClaimKeeps(st: State, loc: Map, i: nat)
    requires Places(st, loc) && CanClaim(st, i)
    ensures Places(DoClaim(st, i), Claiming(st, loc, i))
  {
    hide ClientsOk, ListsOk, SwappedOk, ClosersOk, LinksOk;
    var pc := st.clients[i];
    var s := pc.session;
    if (pc.global, s) !in st.swapped {
      ClientsKeep(st.clients, loc, i, Replied(400));
    } else {
      var to := Claimed(i);
      SwappedTake(st.swapped, loc, pc.global, s, to);
      ClientsTake(st.clients, loc, i, Won(pc.global, s, pc.inv), s);
      ListsFrame(st.tables.processes, loc, s, to);
      ClosersFrame(st.closers, st.tables.processes, st.tables.processes, loc, s, to);
      LinksFrame(st.links, st.tables.processes, loc, s, to);
    }
  }

  /** A change of the entry of p that leaves its list and its output alone, and of its link. */
  lemma ProcessOnly(st: State, loc: Map, p: Text, pr: ProcessInfo, l: Link)
    requires Places(st, loc) && p in st.tables.processes && p in st.links
    requires pr.sessions == st.tables.processes[p].sessions && LinkOk(p, l, pr.sent, loc)
    ensures Places(SetLink(st, p, l).(tables := st.tables.(processes := st.tables.processes[p := pr])), loc)
  {
    hide ClientsOk, ListsOk, SwappedOk, ClosersOk, LinksOk, LinkOk;
    var procs := st.tables.processes;
    ListsKeep(procs, loc, p, pr);
    ClosersProcs(st.closers, procs, procs[p := pr], loc);
    LinksSet(st.links, procs, loc, p, l, pr);
  }

  lemma ReserveKeeps(st: State, loc: Map, i: nat, p: Text)
    requires Places(st, loc) && CanReserveFree(st, i, p)
    ensures Places(DoReserveFree(st, i, p), loc)
  {
    hide ClientsOk, ListsOk, SwappedOk, ClosersOk, LinksOk, LinkOk;
    var st1 := SetClient(st, i, DoReserveFree(st, i, p).clients[i]);
    ClientOnly(st, loc, i, DoReserveFree(st, i, p).clients[i]);
    LinkFact(st.links, st.tables.processes, loc, p);
    assert st.links[p := st.links[p]] == st.links;
    ProcessOnly(st1, loc, p, DoReserveFree(st, i, p).tables.processes[p], st.links[p]);
  }

  lemma LinksNew(links: map<Text, Link>, procs: map<Text, ProcessInfo>, loc: Map, p: Text, l: Link, pr: ProcessInfo)
    requires LinksOk(links, procs, loc) && LinkOk(p, l, pr.sent, loc)
    ensures LinksOk(links[p := l], procs[p := pr], loc)
  {
  }

  lemma AddProcessKeeps(st: State, loc: Map, i: nat, p: Text)
    requires Places(st, loc) && CanAddProcess(st, i, p) && p !in st.tables.processes
    ensures Places(DoAddProcess(st, i, p), loc)
  {
    hide ClientsOk, ListsOk, SwappedOk, ClosersOk, LinksOk;
    var st' := DoAddProcess(st, i, p);
    ClientsKeep(st.clients, loc, i, st'.clients[i]);
    ListsNew(st.tables.processes, loc, p, st'.tables.processes[p]);
    ClosersProcs(st.closers, st.tables.processes, st'.tables.processes, loc);
    LinksNew(st.links, st.tables.processes, loc, p, st'.links[p], st'.tables.processes[p]);
  }

  /** The link of p when a session is placed on it. */
  lemma PlaceLink(p: Text, l: Link, procs: map<Text, ProcessInfo>, loc: Map, t': Tables, r: Request, existing: bool,
      to: Loc)
    requires p in procs && LinkOk(p, l, procs[p].sent, loc)
    requires r.session in loc ==> !Travels(loc[r.session], p)
    requires p in t'.processes
    requires t'.processes[p].sent == if existing && procs[p].connected then procs[p].sent + [r] else procs[p].sent
    requires to == Listed(p, if existing && procs[p].connected then Phase.Asked else Waiting)
    ensures LinkOk(p, if existing then l else l.(stage := Spawned), t'.processes[p].sent, loc[r.session := to])
  {
    hide LinkOk;
    if existing && procs[p].connected {
      LinkRequest(p, l, procs[p].sent, loc, r);
    } else {
      LinkFrame(p, l, procs[p].sent, loc, r.session, to);
      LinkStage(p, l, procs[p].sent, loc[r.session := to], Spawned);
    }
  }

  lemma PlaceKeeps(st: State, loc: Map, i: nat)
    requires Places(st, loc) && CanPlace(st, i)
    ensures Places(DoPlace(st, i), Placing(st, loc, i))
  {
    hide ClientsOk, ListsOk, SwappedOk, ClosersOk, LinksOk, LinkOk;
    var Reserved(job, p, existing) := st.clients[i];
    var s := job.session;
    var st' := DoPlace(st, i);
    var procs, procs' := st.tables.processes, st'.tables.processes;
    var to := Listed(p, if existing && procs[p].connected then Phase.Asked else Waiting);
    ClaimFact(st.clients, loc, i);
    LinkFact(st.links, procs, loc, p);
    PlaceLink(p, st.links[p], procs, loc, st'.tables, Request(s, job.config.maxFunctions, job.config.memory),
        existing, to);
    assert st.links[p := st'.links[p]] == st'.links;
    ClientsGive(st.clients, loc, i, Placed(job.global, s), s, to);
    ListsAdd(procs, loc, p, procs'[p], s, to.phase);
    SwappedFrame(st.swapped, loc, s, to);
    ClosersFrame(st.closers, procs, procs', loc, s, to);
    LinksMove(st.links, procs, loc, p, st'.links[p], procs'[p], s, to);
  }

  lemma AttachKeeps(st: State, loc: Map, p: Text)
    requires Places(st, loc) && CanAttach(st, p)
    ensures Places(DoAttach(st, p), loc)
  {
    hide ClientsOk, ListsOk, SwappedOk, ClosersOk, LinksOk, LinkOk;
    var st' := DoAttach(st, p);
    LinkFact(st.links, st.tables.processes, loc, p);
    LinkStage(p, st.links[p], st.tables.processes[p].sent, loc, Attached);
    ProcessOnly(st, loc, p, st'.tables.processes[p], st'.links[p]);
  }

  lemma DrainKeeps(st: State, loc: Map, s: Text)
    requires Places(st, loc)
    ensures Places(DoDrain(st, s), loc)
  {
    hide ClientsOk, ListsOk, SwappedOk, ClosersOk, LinksOk;
  }

  /** A change of one link that moves session s from one phase on p to another. */
  lemma LinkMoves(st: State, loc: Map, p: Text, l: Link, s: Text, to: Loc)
    requires Places(st, loc) && p in st.links && p in st.tables.processes
    requires On(loc, s, p) && to.Listed? && to.p == p && CloserFree(loc[s]) && CloserFree(to)
    requires LinkOk(p, l, st.tables.processes[p].sent, loc[s := to])
    ensures Places(SetLink(st, p, l), loc[s := to])
  {
    hide ClientsOk, ListsOk, SwappedOk, ClosersOk, LinksOk, LinkOk;
    var procs := st.tables.processes;
    assert procs[p := procs[p]] == procs;
    ClientsFrame(st.clients, loc, s, to);
    ListsFrame(procs, loc, s, to);
    SwappedFrame(st.swapped, loc, s, to);
    ClosersFrame(st.closers, procs, procs, loc, s, to);
    LinksMove(st.links, procs, loc, p, l, procs[p], s, to);
  }

  lemma LinkOnly(st: State, loc: Map, p: Text, l: Link)
    requires Places(st, loc) && p in st.links && p in st.tables.processes
    requires LinkOk(p, l, st.tables.processes[p].sent, loc)
    ensures Places(SetLink(st, p, l), loc)
  {
    hide ClientsOk, ListsOk, SwappedOk, ClosersOk, LinksOk, LinkOk;
    var procs := st.tables.processes;
    assert procs[p := procs[p]] == procs;
    LinksSet(st.links, procs, loc, p, l, procs[p]);
  }

  lemma LinkOf(st: State, loc: Map, p: Text)
    requires Places(st, loc) && p in st.links
    ensures p in st.tables.processes && LinkOk(p, st.links[p], st.tables.processes[p].sent, loc)
  {
    hide ClientsOk, ListsOk, SwappedOk, ClosersOk, LinksOk, LinkOk;
    LinkFact(st.links, st.tables.processes, loc, p);
  }

  lemma AnnounceKeeps(st: State, loc: Map, p: Text)
    requires Places(st, loc) && CanAnnounce(st, p)
    ensures Places(DoAnnounce(st, p), loc)
  {
    hide Places, LinkOk;
    LinkOf(st, loc, p);
    LinkStage(p, st.links[p], st.tables.processes[p].sent, loc, Announced);
    LinkOnly(st, loc, p, st.links[p].(stage := Announced));
  }

  /** In a consistent state a request is never refused. */
  lemma NotRefused(st: State, loc: Map, p: Text, o: Outcome)
    requires Places(st, loc) && CanAllocate(st, p, o)
    requires |st.tables.processes[p].sessions| <= MAX_SESSIONS_PER_PROCESS
    ensures
      var l := st.links[p];
      Allocate(l.forks, l.maxSessions, st.tables.processes[p].sent[l.taken], o)
      == (l.forks + [Forked(st.tables.processes[p].sent[l.taken], o)], if o.NoMemory? then UNKNOWN_FAILURE else SUCCESS)
  {
    hide ClientsOk, ListsOk, SwappedOk, ClosersOk, LinksOk, LinkOk, NoDup;
    ListFact(st.tables.processes, loc, p);
    LinkFact(st.links, st.tables.processes, loc, p);
    AllocationSucceeds(p, st.links[p], st.tables.processes[p].sent, loc, st.tables.processes[p].sessions);
  }

  lemma AllocateKeeps(st: State, loc: Map, p: Text, o: Outcome)
    requires Places(st, loc) && CanAllocate(st, p, o)
    requires |st.tables.processes[p].sessions| <= MAX_SESSIONS_PER_PROCESS
    ensures Places(DoAllocate(st, p, o),
                   loc[st.tables.processes[p].sent[st.links[p].taken].session := Listed(p, Hosted)])
  {
    hide Places, LinkOk, Allocate;
    LinkOf(st, loc, p);
    var l, sent := st.links[p], st.tables.processes[p].sent;
    var r := sent[l.taken];
    PendingFact(p, l, sent, loc);
    NotRefused(st, loc, p, o);
    LinkAllocate(p, l, sent, loc, Forked(r, o), DoAllocate(st, p, o).links[p].reply.value);
    LinkMoves(st, loc, p, DoAllocate(st, p, o).links[p], r.session, Listed(p, Hosted));
  }

  lemma ReplyKeeps(st: State, loc: Map, p: Text)
    requires Places(st, loc) && CanReply(st, p)
    ensures Places(DoReply(st, p), loc)
  {
    hide Places, LinkOk;
    LinkOf(st, loc, p);
    LinkReply(p, st.links[p], st.tables.processes[p].sent, loc);
    LinkOnly(st, loc, p, DoReply(st, p).links[p]);
  }

  lemma DeleteKeeps(st: State, loc: Map, p: Text, pid: int32, swapping: bool)
    requires Places(st, loc) && CanDelete(st, p, pid)
    ensures Places(DoDelete(st, p, pid, swapping), Deleting(st, loc, p, pid))
  {
    hide Places, LinkOk, FindPid;
    var l := st.links[p];
    var k := FindPid(l.forks, pid);
    if k < |l.forks| {
      LinkOf(st, loc, p);
      ForkFact(p, l, st.tables.processes[p].sent, loc, k);
      LinkDelete(p, l, st.tables.processes[p].sent, loc, k, Closing(l.forks[k], swapping));
      LinkMoves(st, loc, p, DoDelete(st, p, pid, swapping).links[p], l.forks[k].session, Listed(p, Ending));
    }
  }

  lemma ReportKeeps(st: State, loc: Map, p: Text, c: Closure)
    requires Places(st, loc) && CanReport(st, p, c)
    ensures Places(DoReport(st, p, c), loc[c.session := Listed(p, Reported)])
  {
    hide Places, LinkOk;
    LinkOf(st, loc, p);
    var l, sent := st.links[p], st.tables.processes[p].sent;
    var l' := l.(closing := l.closing - multiset{c}, up := l.up + [Closed(c)]);
    ClosingFact(p, l, sent, loc, c);
    LinkReport(p, l, sent, loc, c);
    LinkMoves(st, loc, p, l', c.session, Listed(p, Reported));
  }

  lemma TakeKeeps(st: State, loc: Map, p: Text, j: nat)
    requires Places(st, loc) && CanTake(st, p, j)
    ensures Places(DoTake(st, p, j), Taking(st, loc, p, j))
  {
    hide ClientsOk, ListsOk, SwappedOk, ClosersOk, LinksOk, LinkOk;
    LinkOf(st, loc, p);
    var l, procs := st.links[p], st.tables.processes;
    var l' := l.(up := l.up[1..]);
    LinkTake(p, l, procs[p].sent, loc, j);
    if !l.up[0].Closed? {
      LinkOnly(st, loc, p, l');
    } else {
      var s := l.up[0].closure.session;
      var to := Listed(p, Taken(j));
      UpFact(p, l, procs[p].sent, loc);
      assert procs[p := procs[p]] == procs;
      ClientsFrame(st.clients, loc, s, to);
      ListsFrame(procs, loc, s, to);
      SwappedFrame(st.swapped, loc, s, to);
      ClosersTake(st.closers, procs, loc, j, p, s);
      LinksMove(st.links, procs, loc, p, l', procs[p], s, to);
    }
  }

  lemma RemoveKeeps(st: State, loc: Map, j: nat)
    requires Places(st, loc) && CanRemove(st, j)
    ensures Places(DoRemove(st, j), loc[st.closers[j].session := Leaving(j)])
  {
    hide ClientsOk, ListsOk, SwappedOk, ClosersOk, LinksOk, LinkOk, NoDup, IndexOf;
    var Received(p, s) := st.closers[j];
    var procs, procs' := st.tables.processes, DoRemove(st, j).tables.processes;
    var to := Leaving(j);
    CloserFact(st.closers, procs, loc, j);
    LinkFact(st.links, procs, loc, p);
    ListFact(procs, loc, p);
    assert st.links[p := st.links[p]] == st.links;
    assert s in procs[p].sessions;
    LinkFrame(p, st.links[p], procs[p].sent, loc, s, to);
    ClientsFrame(st.clients, loc, s, to);
    ListsDrop(procs, loc, p, procs'[p], s, to);
    SwappedFrame(st.swapped, loc, s, to);
    ClosersRemove(st.closers, procs, procs', loc, j, p, s);
    LinksMove(st.links, procs, loc, p, st.links[p], procs'[p], s, to);
  }

  lemma UnmarkKeeps(st: State, loc: Map, j: nat)
    requires Places(st, loc) && CanUnmark(st, j)
    ensures Places(DoUnmark(st, j), loc)
  {
    hide ClientsOk, ListsOk, SwappedOk, ClosersOk, LinksOk;
    ClosersKeep(st.closers, st.tables.processes, loc, j, DoUnmark(st, j).closers[j]);
  }

  lemma ParkKeeps(st: State, loc: Map, j: nat)
    requires Places(st, loc) && CanPark(st, j)
    ensures Places(DoPark(st, j),
                   loc[st.closers[j].session := Swapped(st.tables.processes[st.closers[j].process].globalId)])
  {
    hide ClientsOk, ListsOk, SwappedOk, ClosersOk, LinksOk;
    var Unmarked(p, s) := st.closers[j];
    var procs := st.tables.processes;
    var to := Swapped(procs[p].globalId);
    CloserFact(st.closers, procs, loc, j);
    ClientsFrame(st.clients, loc, s, to);
    ListsFrame(procs, loc, s, to);
    SwappedAdd(st.swapped, loc, procs[p].globalId, s);
    ClosersPark(st.closers, procs, loc, j, p, s, to);
    LinksFrame(st.links, procs, loc, s, to);
  }

  lemma EraseKeeps(st: State, loc: Map, j: nat)
    requires Places(st, loc) && CanErase(st, j)
    ensures Places(DoErase(st, j), loc)
  {
    hide ClientsOk, ListsOk, SwappedOk, ClosersOk, LinksOk;
    ClosersKeep(st.closers, st.tables.processes, loc, j, Finished);
  }
}
