/** Every action keeps connection stages, allocation flags, the kinds of jobs and the capacity counts. */
module StepFlags {
  import opened Bytes
  import opened SessionRecord
  import opened MemorySize
  import opened Tables
  import opened RuntimeSessions
  import opened Protocol
  import opened Invariant
  import opened Identification

  // ----- stages

  lemma StagesClient(clients: map<nat, Client>, links: map<Text, Link>, procs: map<Text, ProcessInfo>, i: nat,
      c: Client)
    requires links.Keys == procs.Keys && StagesOk(clients, links, procs)
    requires c.Reserved? ==> c.existing && c.process in procs
    ensures StagesOk(clients[i := c], links, procs)
  {
  }

  lemma StagesProcess(clients: map<nat, Client>, links: map<Text, Link>, procs: map<Text, ProcessInfo>,
                      p: Text, l: Link, pr: ProcessInfo)
    requires links.Keys == procs.Keys && StagesOk(clients, links, procs) && p in procs
    requires Connects(l, pr)
    requires l.stage == links[p].stage || links[p].stage != Unborn
             || forall i :: i in clients && NewFor(clients[i]) ==> clients[i].process != p
    ensures StagesOk(clients, links[p := l], procs[p := pr])
  {
  }

  lemma StagesNew(clients: map<nat, Client>, links: map<Text, Link>, procs: map<Text, ProcessInfo>,
                  i: nat, c: Client, p: Text, l: Link, pr: ProcessInfo)
    requires links.Keys == procs.Keys && StagesOk(clients, links, procs) && p !in procs
    requires c.Reserved? && !c.existing && c.process == p
    requires l.stage == Unborn && !pr.connected && pr.sent == []
    ensures StagesOk(clients[i := c], links[p := l], procs[p := pr])
  {
  }

  lemma StagesFact(clients: map<nat, Client>, links: map<Text, Link>, procs: map<Text, ProcessInfo>, p: Text)
    requires links.Keys == procs.Keys && StagesOk(clients, links, procs) && p in procs
    ensures Connects(links[p], procs[p])
  {
  }

  lemma StagesPlace(clients: map<nat, Client>, links: map<Text, Link>, procs: map<Text, ProcessInfo>,
                    i: nat, l: Link, pr: ProcessInfo, g: Text)
    requires links.Keys == procs.Keys && StagesOk(clients, links, procs)
    requires i in clients && clients[i].Reserved?
    requires clients[i].process in procs
    requires var p := clients[i].process;
      && pr.connected == procs[p].connected && (!pr.connected ==> pr.sent == procs[p].sent)
      && l == (if clients[i].existing then links[p] else links[p].(stage := Spawned))
    ensures StagesOk(clients[i := Placed(g, clients[i].job.session)], links[clients[i].process := l],
      procs[clients[i].process := pr])
  {
  }

  // ----- flags

  lemma FlagsFact(sessions: map<Text, SessionInfo>, links: map<Text, Link>, loc: Map, s: Text)
    requires FlagsOk(sessions, links, loc) && s in loc && loc[s].Listed? && !loc[s].phase.Waiting?
    ensures s in sessions && sessions[s].isAllocated && loc[s].p in links
  {
  }

  /** s, which the control plane has allocated, moves on. */
  lemma FlagsMove(sessions: map<Text, SessionInfo>, links: map<Text, Link>, loc: Map, s: Text, to: Loc)
    requires FlagsOk(sessions, links, loc) && s in sessions && sessions[s].isAllocated
    requires to.Listed? ==> to.p in links
    ensures FlagsOk(sessions, links, loc[s := to])
  {
  }

  lemma FlagsCreate(sessions: map<Text, SessionInfo>, links: map<Text, Link>, loc: Map, s: Text, i: nat)
    requires FlagsOk(sessions, links, loc) && s !in sessions
    ensures FlagsOk(sessions, links, loc[s := Claimed(i)])
  {
  }

  lemma FlagsLink(sessions: map<Text, SessionInfo>, links: map<Text, Link>, loc: Map, p: Text, l: Link)
    requires FlagsOk(sessions, links, loc) && (l.stage == Live ==> p in links && links[p].stage == Live)
    ensures FlagsOk(sessions, links[p := l], loc)
  {
  }

  lemma FlagsSession(sessions: map<Text, SessionInfo>, links: map<Text, Link>, loc: Map, s: Text, info: SessionInfo)
    requires FlagsOk(sessions, links, loc) && s in sessions && info.isAllocated == sessions[s].isAllocated
    ensures FlagsOk(sessions[s := info], links, loc)
  {
  }

  lemma FlagsPlace(sessions: map<Text, SessionInfo>, links: map<Text, Link>, loc: Map, s: Text, info: SessionInfo,
      to: Loc)
    requires FlagsOk(sessions, links, loc) && to.Listed? && to.p in links
    requires !info.isAllocated ==> to.phase == Waiting && links[to.p].stage != Live
    ensures FlagsOk(sessions[s := info], links, loc[s := to])
  {
  }

  lemma FlagsIdentify(st: State, loc: Map, p: Text)
    requires CanIdentify(st, p) && FlagsOk(st.tables.sessions, st.links, loc)
    requires forall s :: s in st.tables.processes[p].sessions <==> On(loc, s, p)
    ensures FlagsOk(Mark(st.tables.sessions, st.tables.processes[p].sessions),
                    st.links[p := st.links[p].(stage := Live)], Identifying(st, loc, p))
  {
  }

  lemma ClaimedFlag(sessions: map<Text, SessionInfo>, links: map<Text, Link>, loc: Map, s: Text)
    requires FlagsOk(sessions, links, loc) && s in loc && (loc[s].Swapped? || loc[s].Leaving?)
    ensures s in sessions && sessions[s].isAllocated
  {
  }

  // ----- jobs

  lemma JobsClient(clients: map<nat, Client>, sessions: map<Text, SessionInfo>, i: nat, c: Client)
    requires JobsOk(clients, sessions)
    requires c.Won? ==> c.session in sessions
    requires HasJob(c) ==> (c.job.swapIn <==> c.job.session in sessions)
    ensures JobsOk(clients[i := c], sessions)
  {
  }

  lemma JobsPlace(clients: map<nat, Client>, sessions: map<Text, SessionInfo>, loc: Map, i: nat, s: Text,
      info: SessionInfo, c: Client)
    requires JobsOk(clients, sessions) && ClientsOk(clients, loc) && At(loc, s, Claimed(i)) && c.Placed?
    ensures JobsOk(clients[i := c], sessions[s := info])
  {
  }

  lemma JobsKeys(clients: map<nat, Client>, sessions: map<Text, SessionInfo>, sessions': map<Text, SessionInfo>)
    requires JobsOk(clients, sessions) && sessions.Keys == sessions'.Keys
    ensures JobsOk(clients, sessions')
  {
  }

  lemma JobFact(clients: map<nat, Client>, sessions: map<Text, SessionInfo>, i: nat)
    requires JobsOk(clients, sessions) && i in clients
    ensures clients[i].Won? ==> clients[i].session in sessions
    ensures HasJob(clients[i]) ==> (clients[i].job.swapIn <==> clients[i].job.session in sessions)
  {
  }

  // ----- capacity

  lemma ReservationsSame(clients: map<nat, Client>, i: nat, c: Client)
    requires !c.Reserved? && (i in clients ==> !clients[i].Reserved?)
    ensures forall p :: Reservations(clients[i := c], p) == Reservations(clients, p)
  {
  }

  lemma CapacityFact(clients: map<nat, Client>, procs: map<Text, ProcessInfo>, p: Text)
    requires CapacityOk(clients, procs) && p in procs
    ensures procs[p].maxSessions == MAX_SESSIONS_PER_PROCESS
    ensures |procs[p].sessions| <= MAX_SESSIONS_PER_PROCESS
  {
  }

  lemma CapacityClient(clients: map<nat, Client>, procs: map<Text, ProcessInfo>, i: nat, c: Client)
    requires CapacityOk(clients, procs) && !c.Reserved? && (i in clients ==> !clients[i].Reserved?)
    ensures CapacityOk(clients[i := c], procs)
  {
    ReservationsSame(clients, i, c);
  }

  lemma CapacityProcess(clients: map<nat, Client>, procs: map<Text, ProcessInfo>, p: Text, pr: ProcessInfo)
    requires CapacityOk(clients, procs) && p in procs
    requires pr.maxSessions == procs[p].maxSessions
    requires pr.allocatedSessions - |pr.sessions| == procs[p].allocatedSessions - |procs[p].sessions|
    requires pr.allocatedSessions <= procs[p].allocatedSessions
    ensures CapacityOk(clients, procs[p := pr])
  {
  }

  /** Handler i takes a place on p; p may be new. */
  lemma CapacityReserve(clients: map<nat, Client>, procs: map<Text, ProcessInfo>, i: nat, c: Client, pr: ProcessInfo)
    requires CapacityOk(clients, procs) && c.Reserved? && i in clients && !clients[i].Reserved?
    requires pr.maxSessions == MAX_SESSIONS_PER_PROCESS && pr.allocatedSessions <= pr.maxSessions
    requires pr.allocatedSessions == |pr.sessions| + |Reservations(clients, c.process)| + 1
    ensures CapacityOk(clients[i := c], procs[c.process := pr])
  {
    var p := c.process;
    assert Reservations(clients[i := c], p) == Reservations(clients, p) + {i};
    forall q | q != p ensures Reservations(clients[i := c], q) == Reservations(clients, q) {
    }
  }

  lemma CapacityPlace(clients: map<nat, Client>, procs: map<Text, ProcessInfo>, i: nat, c: Client, pr: ProcessInfo)
    requires CapacityOk(clients, procs) && i in clients && clients[i].Reserved? && !c.Reserved?
    requires clients[i].process in procs
    requires var old' := procs[clients[i].process];
      && pr.maxSessions == old'.maxSessions && pr.allocatedSessions == old'.allocatedSessions
      && |pr.sessions| == |old'.sessions| + 1
    ensures CapacityOk(clients[i := c], procs[clients[i].process := pr])
  {
    var p := clients[i].process;
    assert Reservations(clients, p) == Reservations(clients[i := c], p) + {i};
    forall q | q != p ensures Reservations(clients[i := c], q) == Reservations(clients, q) {
    }
  }

  lemma ReservationsFact(clients: map<nat, Client>, procs: map<Text, ProcessInfo>, links: map<Text, Link>, p: Text)
    requires links.Keys == procs.Keys && StagesOk(clients, links, procs) && p !in procs
    ensures Reservations(clients, p) == {}
  {
  }

  lemma CapacityCount(clients: map<nat, Client>, procs: map<Text, ProcessInfo>, p: Text)
    requires CapacityOk(clients, procs) && p in procs
    ensures procs[p].allocatedSessions == |procs[p].sessions| + |Reservations(clients, p)|
  {
  }

  // ----- the actions

  /** A client step that reserves and places nothing. */
  lemma ClientFlags(st: State, loc: Map, i: nat, c: Client)
    requires Flags(st, loc) && !c.Reserved? && (i in st.clients ==> !st.clients[i].Reserved?)
    requires c.Won? ==> c.session in st.tables.sessions
    requires HasJob(c) ==> (c.job.swapIn <==> c.job.session in st.tables.sessions)
    ensures Flags(SetClient(st, i, c), loc)
  {
    hide StagesOk, FlagsOk, JobsOk, CapacityOk;
    StagesClient(st.clients, st.links, st.tables.processes, i, c);
    JobsClient(st.clients, st.tables.sessions, i, c);
    CapacityClient(st.clients, st.tables.processes, i, c);
  }

  lemma CreateFlags(st: State, loc: Map, i: nat, s: Text)
    requires Flags(st, loc) && CanCreate(st, i, s) && s !in st.tables.sessions
    ensures Flags(DoCreate(st, i, s), loc[s := Claimed(i)])
  {
    hide StagesOk, FlagsOk, JobsOk, CapacityOk;
    FlagsCreate(st.tables.sessions, st.links, loc, s, i);
    ClientFlags(st, loc[s := Claimed(i)], i, DoCreate(st, i, s).clients[i]);
  }

  lemma ClaimFlags(st: State, loc: Map, i: nat)
    requires Flags(st, loc) && CanClaim(st, i) && SwappedOk(st.swapped, loc)
    ensures Flags(DoClaim(st, i), Claiming(st, loc, i))
  {
    var pc := st.clients[i];
    if (pc.global, pc.session) in st.swapped {
      assert At(loc, pc.session, Swapped(pc.global));
      hide StagesOk, FlagsOk, JobsOk, CapacityOk, SwappedOk;
      ClaimedFlag(st.tables.sessions, st.links, loc, pc.session);
      FlagsMove(st.tables.sessions, st.links, loc, pc.session, Claimed(i));
      ClientFlags(st, loc[pc.session := Claimed(i)], i, Won(pc.global, pc.session, pc.inv));
    } else {
      hide StagesOk, FlagsOk, JobsOk, CapacityOk, SwappedOk;
      ClientFlags(st, loc, i, Replied(400));
    }
  }

  lemma ReadRecordFlags(st: State, loc: Map, i: nat)
    requires Flags(st, loc) && CanReadRecord(st, i)
    ensures Flags(DoReadRecord(st, i), loc)
  {
    hide StagesOk, FlagsOk, JobsOk, CapacityOk;
    JobFact(st.clients, st.tables.sessions, i);
    ClientFlags(st, loc, i, DoReadRecord(st, i).clients[i]);
  }

  lemma FindNoFreeFlags(st: State, loc: Map, i: nat)
    requires Flags(st, loc) && CanFindNoFree(st, i)
    ensures Flags(DoFindNoFree(st, i), loc)
  {
    hide StagesOk, FlagsOk, JobsOk, CapacityOk;
    JobFact(st.clients, st.tables.sessions, i);
    ClientFlags(st, loc, i, NoFree(st.clients[i].job));
  }

  lemma ReserveFlags(st: State, loc: Map, i: nat, p: Text)
    requires Flags(st, loc) && CanReserveFree(st, i, p)
    ensures Flags(DoReserveFree(st, i, p), loc)
  {
    hide StagesOk, FlagsOk, JobsOk, CapacityOk;
    var procs, c := st.tables.processes, DoReserveFree(st, i, p).clients[i];
    var pr := DoReserveFree(st, i, p).tables.processes[p];
    CapacityFact(st.clients, procs, p);
    CapacityCount(st.clients, procs, p);
    StagesFact(st.clients, st.links, procs, p);
    JobFact(st.clients, st.tables.sessions, i);
    StagesClient(st.clients, st.links, procs, i, c);
    assert st.links[p := st.links[p]] == st.links;
    StagesProcess(st.clients[i := c], st.links, procs, p, st.links[p], pr);
    JobsClient(st.clients, st.tables.sessions, i, c);
    CapacityReserve(st.clients, procs, i, c, pr);
  }

  lemma AddProcessFlags(st: State, loc: Map, i: nat, p: Text)
    requires Flags(st, loc) && CanAddProcess(st, i, p) && p !in st.tables.processes
    ensures Flags(DoAddProcess(st, i, p), loc)
  {
    hide StagesOk, FlagsOk, JobsOk, CapacityOk;
    var st' := DoAddProcess(st, i, p);
    ReservationsFact(st.clients, st.tables.processes, st.links, p);
    StagesNew(st.clients, st.links, st.tables.processes, i, st'.clients[i], p, st'.links[p], st'.tables.processes[p]);
    FlagsLink(st.tables.sessions, st.links, loc, p, st'.links[p]);
    JobFact(st.clients, st.tables.sessions, i);
    JobsClient(st.clients, st.tables.sessions, i, st'.clients[i]);
    CapacityReserve(st.clients, st.tables.processes, i, st'.clients[i], st'.tables.processes[p]);
  }

  lemma NewStage(clients: map<nat, Client>, links: map<Text, Link>, procs: map<Text, ProcessInfo>, i: nat)
    requires links.Keys == procs.Keys && StagesOk(clients, links, procs) && i in clients && clients[i].Reserved?
    ensures clients[i].process in procs
    ensures !clients[i].existing ==> links[clients[i].process].stage == Unborn
  {
  }

  lemma PlaceFlags(st: State, loc: Map, i: nat)
    requires Places(st, loc) && Flags(st, loc) && CanPlace(st, i) && At(loc, st.clients[i].job.session, Claimed(i))
    ensures Flags(DoPlace(st, i), Placing(st, loc, i))
  {
    hide StagesOk, FlagsOk, JobsOk, CapacityOk;
    hide ListsOk, SwappedOk, ClosersOk, LinksOk, ClientsOk;
    var Reserved(job, p, existing) := st.clients[i];
    var s, st' := job.session, DoPlace(st, i);
    var procs, procs' := st.tables.processes, st'.tables.processes;
    var info, c := st'.tables.sessions[s], Placed(job.global, s);
    assert st.links[p := st'.links[p]] == st'.links;
    NewStage(st.clients, st.links, procs, i);
    StagesFact(st.clients, st.links, procs, p);
    StagesPlace(st.clients, st.links, procs, i, st'.links[p], procs'[p], job.global);
    FlagsLink(st.tables.sessions, st.links, loc, p, st'.links[p]);
    FlagsPlace(st.tables.sessions, st'.links, loc, s, info, Placing(st, loc, i)[s]);
    JobsPlace(st.clients, st.tables.sessions, loc, i, s, info, c);
    CapacityPlace(st.clients, procs, i, c, procs'[p]);
  }

  lemma AttachFlags(st: State, loc: Map, p: Text)
    requires Flags(st, loc) && CanAttach(st, p)
    ensures Flags(DoAttach(st, p), loc)
  {
    hide StagesOk, FlagsOk, JobsOk, CapacityOk;
    var st' := DoAttach(st, p);
    StagesFact(st.clients, st.links, st.tables.processes, p);
    StagesProcess(st.clients, st.links, st.tables.processes, p, st'.links[p], st'.tables.processes[p]);
    FlagsLink(st.tables.sessions, st.links, loc, p, st'.links[p]);
    CapacityProcess(st.clients, st.tables.processes, p, st'.tables.processes[p]);
  }

  lemma IdentifyFlags(st: State, loc: Map, p: Text)
    requires Flags(st, loc) && CanIdentify(st, p) && ListsOk(st.tables.processes, loc)
    ensures Flags(DoIdentify(st, p), Identifying(st, loc, p))
  {
    hide StagesOk, FlagsOk, JobsOk, CapacityOk, ListsOk, NoDup, RequestAll, Identifying;
    var procs, list := st.tables.processes, st.tables.processes[p].sessions;
    var st' := DoIdentify(st, p);
    Moves.ListFact(procs, loc, p);
    StagesFact(st.clients, st.links, procs, p);
    RequestAllEffect(st.tables, p, list);
    StagesProcess(st.clients, st.links, procs, p, st'.links[p], st'.tables.processes[p]);
    FlagsIdentify(st, loc, p);
    JobsKeys(st.clients, st.tables.sessions, st'.tables.sessions);
    CapacityProcess(st.clients, procs, p, st'.tables.processes[p]);
  }

  lemma DrainFlags(st: State, loc: Map, s: Text)
    requires Flags(st, loc)
    ensures Flags(DoDrain(st, s), loc)
  {
    hide StagesOk, FlagsOk, JobsOk, CapacityOk;
    if s in st.tables.sessions {
      FlagsSession(st.tables.sessions, st.links, loc, s, DoDrain(st, s).tables.sessions[s]);
      JobsKeys(st.clients, st.tables.sessions, DoDrain(st, s).tables.sessions);
    }
  }

  /** A change of one link that keeps its stage. */
  lemma LinkFlags(st: State, loc: Map, p: Text, l: Link)
    requires Flags(st, loc) && p in st.links
    requires l.stage == st.links[p].stage || (st.links[p].stage == Spawned && l.stage == Announced)
    ensures Flags(SetLink(st, p, l), loc)
  {
    hide StagesOk, FlagsOk, JobsOk, CapacityOk;
    var procs := st.tables.processes;
    assert procs[p := procs[p]] == procs;
    StagesFact(st.clients, st.links, procs, p);
    StagesProcess(st.clients, st.links, procs, p, l, procs[p]);
    FlagsLink(st.tables.sessions, st.links, loc, p, l);
  }

  /** A session that the control plane has allocated moves. */
  lemma MoveFlags(st: State, loc: Map, s: Text, to: Loc)
    requires Flags(st, loc) && s in loc && (loc[s].Leaving? || (loc[s].Listed? && !loc[s].phase.Waiting?))
    requires to.Listed? ==> to.p in st.links
    ensures Flags(st, loc[s := to])
  {
    hide StagesOk, FlagsOk, JobsOk, CapacityOk;
    if loc[s].Listed? {
      FlagsFact(st.tables.sessions, st.links, loc, s);
    } else {
      ClaimedFlag(st.tables.sessions, st.links, loc, s);
    }
    FlagsMove(st.tables.sessions, st.links, loc, s, to);
  }

  lemma RemoveFlags(st: State, loc: Map, j: nat)
    requires Flags(st, loc) && CanRemove(st, j)
    requires At(loc, st.closers[j].session, Listed(st.closers[j].process, Taken(j)))
    ensures Flags(DoRemove(st, j), loc[st.closers[j].session := Leaving(j)])
  {
    hide StagesOk, FlagsOk, JobsOk, CapacityOk, IndexOf;
    var Received(p, s) := st.closers[j];
    var procs, procs' := st.tables.processes, DoRemove(st, j).tables.processes;
    MoveFlags(st, loc, s, Leaving(j));
    StagesFact(st.clients, st.links, procs, p);
    assert st.links[p := st.links[p]] == st.links;
    assert procs[p := procs'[p]] == procs';
    StagesProcess(st.clients, st.links, procs, p, st.links[p], procs'[p]);
    CapacityProcess(st.clients, procs, p, procs'[p]);
  }
}
