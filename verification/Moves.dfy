/** What each part of the invariant needs when one session moves from one location to another and one
    handler, process or link changes. The step proofs only combine these. */
module Moves {
  import opened Bytes
  import opened SessionRecord
  import opened MemorySize
  import opened Tables
  import opened RuntimeSessions
  import opened Protocol
  import opened Invariant

  /** Handler i neither gains nor loses a claim. */
  ghost predicate SameClaim(clients: map<nat, Client>, i: nat, c: Client) {
    if i in clients && Claims(clients[i]) then Claims(c) && ClaimOf(c) == ClaimOf(clients[i]) else !Claims(c)
  }

  lemma ClaimFact(clients: map<nat, Client>, loc: Map, i: nat)
    requires ClientsOk(clients, loc) && i in clients && Claims(clients[i])
    ensures At(loc, ClaimOf(clients[i]), Claimed(i))
  {
  }

  lemma ClientsKeep(clients: map<nat, Client>, loc: Map, i: nat, c: Client)
    requires ClientsOk(clients, loc) && SameClaim(clients, i, c)
    ensures ClientsOk(clients[i := c], loc)
  {
  }

  lemma ClientsTake(clients: map<nat, Client>, loc: Map, i: nat, c: Client, s: Text)
    requires ClientsOk(clients, loc) && (i in clients ==> !Claims(clients[i]))
    requires Claims(c) && ClaimOf(c) == s && (s in loc ==> !loc[s].Claimed?)
    ensures ClientsOk(clients[i := c], loc[s := Claimed(i)])
  {
  }

  lemma ClientsGive(clients: map<nat, Client>, loc: Map, i: nat, c: Client, s: Text, l: Loc)
    requires ClientsOk(clients, loc) && i in clients && Claims(clients[i]) && ClaimOf(clients[i]) == s
    requires !Claims(c) && !l.Claimed?
    ensures ClientsOk(clients[i := c], loc[s := l])
  {
  }

  lemma ClientsFrame(clients: map<nat, Client>, loc: Map, s: Text, l: Loc)
    requires ClientsOk(clients, loc) && (s in loc ==> !loc[s].Claimed?) && !l.Claimed?
    ensures ClientsOk(clients, loc[s := l])
  {
  }

  // ----- lists of the processes

  lemma ListFact(procs: map<Text, ProcessInfo>, loc: Map, p: Text)
    requires ListsOk(procs, loc) && p in procs
    ensures NoDup(procs[p].sessions)
    ensures forall s :: s in procs[p].sessions <==> On(loc, s, p)
  {
  }

  lemma ListsKeep(procs: map<Text, ProcessInfo>, loc: Map, p: Text, pr: ProcessInfo)
    requires ListsOk(procs, loc) && p in procs && pr.sessions == procs[p].sessions
    ensures ListsOk(procs[p := pr], loc)
  {
  }

  lemma ListsNew(procs: map<Text, ProcessInfo>, loc: Map, p: Text, pr: ProcessInfo)
    requires ListsOk(procs, loc) && p !in procs && pr.sessions == []
    ensures ListsOk(procs[p := pr], loc)
  {
  }

  /** s stays where it is, or is on no list before and after. */
  lemma ListsFrame(procs: map<Text, ProcessInfo>, loc: Map, s: Text, l: Loc)
    requires ListsOk(procs, loc)
    requires if s in loc && loc[s].Listed? then l.Listed? && l.p == loc[s].p else !l.Listed?
    ensures ListsOk(procs, loc[s := l])
  {
  }

  lemma ListsAdd(procs: map<Text, ProcessInfo>, loc: Map, p: Text, pr: ProcessInfo, s: Text, phase: Phase)
    requires ListsOk(procs, loc) && p in procs && pr.sessions == procs[p].sessions + [s]
    requires s in loc ==> !loc[s].Listed?
    ensures ListsOk(procs[p := pr], loc[s := Listed(p, phase)])
  {
    assert s !in procs[p].sessions;
  }

  lemma ListsDrop(procs: map<Text, ProcessInfo>, loc: Map, p: Text, pr: ProcessInfo, s: Text, l: Loc)
    requires ListsOk(procs, loc) && On(loc, s, p) && !l.Listed?
    requires IndexOf(procs[p].sessions, s) < |procs[p].sessions|
    requires pr.sessions == RemoveAt(procs[p].sessions, IndexOf(procs[p].sessions, s))
    ensures ListsOk(procs[p := pr], loc[s := l])
  {
    RemoveAtDrops(procs[p].sessions, IndexOf(procs[p].sessions, s));
  }

  lemma RemoveAtDrops(list: seq<Text>, k: nat)
    requires NoDup(list) && k < |list|
    ensures NoDup(RemoveAt(list, k))
    ensures forall x :: x in RemoveAt(list, k) <==> x in list && x != list[k]
  {
    forall x | x in list && x != list[k] ensures x in RemoveAt(list, k) {
      var j :| 0 <= j < |list| && list[j] == x;
      assert x == RemoveAt(list, k)[if j < k then j else j - 1];
    }
  }

  // ----- swapped sessions

  lemma SwappedFrame(swapped: set<(Text, Text)>, loc: Map, s: Text, l: Loc)
    requires SwappedOk(swapped, loc) && (s in loc ==> !loc[s].Swapped?) && !l.Swapped?
    ensures SwappedOk(swapped, loc[s := l])
  {
  }

  lemma SwappedTake(swapped: set<(Text, Text)>, loc: Map, g: Text, s: Text, l: Loc)
    requires SwappedOk(swapped, loc) && (g, s) in swapped && !l.Swapped?
    ensures At(loc, s, Swapped(g)) && SwappedOk(swapped - {(g, s)}, loc[s := l])
  {
  }

  lemma SwappedAdd(swapped: set<(Text, Text)>, loc: Map, g: Text, s: Text)
    requires SwappedOk(swapped, loc) && (s in loc ==> !loc[s].Swapped?)
    ensures SwappedOk(swapped + {(g, s)}, loc[s := Swapped(g)])
  {
  }

  // ----- closure handlers

  ghost predicate CloserFree(l: Loc) { !l.Leaving? && !(l.Listed? && l.phase.Taken?) }

  lemma CloserFact(closers: map<nat, Closer>, procs: map<Text, ProcessInfo>, loc: Map, j: nat)
    requires ClosersOk(closers, procs, loc) && j in closers && !closers[j].Finished?
    ensures closers[j].process in procs
    ensures closers[j].Received? ==> At(loc, closers[j].session, Listed(closers[j].process, Taken(j)))
    ensures Holds(closers[j]) ==> At(loc, closers[j].session, Leaving(j))
  {
  }

  lemma ClosersFrame(closers: map<nat, Closer>, procs: map<Text, ProcessInfo>, procs': map<Text, ProcessInfo>,
                     loc: Map, s: Text, l: Loc)
    requires ClosersOk(closers, procs, loc) && procs.Keys <= procs'.Keys
    requires (s in loc ==> CloserFree(loc[s])) && CloserFree(l)
    ensures ClosersOk(closers, procs', loc[s := l])
  {
  }

  lemma ClosersProcs(closers: map<nat, Closer>, procs: map<Text, ProcessInfo>, procs': map<Text, ProcessInfo>, loc: Map)
    requires ClosersOk(closers, procs, loc) && procs.Keys <= procs'.Keys
    ensures ClosersOk(closers, procs', loc)
  {
  }

  lemma ClosersTake(closers: map<nat, Closer>, procs: map<Text, ProcessInfo>, loc: Map, j: nat, p: Text, s: Text)
    requires ClosersOk(closers, procs, loc) && j !in closers && p in procs
    requires s in loc ==> CloserFree(loc[s])
    ensures ClosersOk(closers[j := Received(p, s)], procs, loc[s := Listed(p, Taken(j))])
  {
  }

  lemma ClosersRemove(closers: map<nat, Closer>, procs: map<Text, ProcessInfo>, procs': map<Text, ProcessInfo>,
                      loc: Map, j: nat, p: Text, s: Text)
    requires ClosersOk(closers, procs, loc) && j in closers && closers[j] == Received(p, s)
    requires procs.Keys <= procs'.Keys
    ensures ClosersOk(closers[j := Removed(p, s)], procs', loc[s := Leaving(j)])
  {
  }

  lemma ClosersKeep(closers: map<nat, Closer>, procs: map<Text, ProcessInfo>, loc: Map, j: nat, c: Closer)
    requires ClosersOk(closers, procs, loc) && j in closers
    requires || (closers[j].Removed? && c == Unmarked(closers[j].process, closers[j].session))
             || (closers[j].Parked? && c == Finished)
    ensures ClosersOk(closers[j := c], procs, loc)
  {
  }

  lemma ClosersPark(closers: map<nat, Closer>, procs: map<Text, ProcessInfo>, loc: Map, j: nat, p: Text, s: Text,
      l: Loc)
    requires ClosersOk(closers, procs, loc) && j in closers && closers[j] == Unmarked(p, s) && l.Swapped?
    ensures ClosersOk(closers[j := Parked(p, s)], procs, loc[s := l])
  {
  }

  // ----- runtime processes and their channels

  /** A location that the link of p may rely on. */
  predicate Travels(l: Loc, p: Text) { l.Listed? && l.p == p && !l.phase.Waiting? && !l.phase.Taken? }

  lemma LinkFact(links: map<Text, Link>, procs: map<Text, ProcessInfo>, loc: Map, p: Text)
    requires LinksOk(links, procs, loc)
    ensures p in links <==> p in procs
    ensures p in links ==> LinkOk(p, links[p], procs[p].sent, loc)
  {
  }

  lemma PendingFact(p: Text, l: Link, sent: seq<Request>, loc: Map)
    requires LinkOk(p, l, sent, loc)
    ensures l.taken <= |sent|
    ensures l.taken < |sent| ==> At(loc, sent[l.taken].session, Listed(p, Phase.Asked))
  {
  }

  lemma ForkFact(p: Text, l: Link, sent: seq<Request>, loc: Map, k: nat)
    requires LinkOk(p, l, sent, loc) && k < |l.forks|
    ensures At(loc, l.forks[k].session, Listed(p, Hosted))
  {
  }

  lemma ClosingFact(p: Text, l: Link, sent: seq<Request>, loc: Map, c: Closure)
    requires LinkOk(p, l, sent, loc) && c in l.closing
    ensures At(loc, c.session, Listed(p, Ending))
  {
  }

  lemma UpFact(p: Text, l: Link, sent: seq<Request>, loc: Map)
    requires LinkOk(p, l, sent, loc) && l.up != [] && l.up[0].Closed?
    ensures At(loc, l.up[0].closure.session, Listed(p, Reported))
  {
  }

  lemma LinkStage(p: Text, l: Link, sent: seq<Request>, loc: Map, stage: Stage)
    requires LinkOk(p, l, sent, loc)
    ensures LinkOk(p, l.(stage := stage), sent, loc)
  {
  }

  lemma LinkFrame(p: Text, l: Link, sent: seq<Request>, loc: Map, s: Text, to: Loc)
    requires LinkOk(p, l, sent, loc) && (s in loc ==> !Travels(loc[s], p))
    ensures LinkOk(p, l, sent, loc[s := to])
  {
  }

  lemma LinksMove(links: map<Text, Link>, procs: map<Text, ProcessInfo>, loc: Map, p: Text, l: Link, pr: ProcessInfo,
                  s: Text, to: Loc)
    requires LinksOk(links, procs, loc)
    requires LinkOk(p, l, pr.sent, loc[s := to])
    requires s in loc && loc[s].Listed? ==> loc[s].p == p
    ensures LinksOk(links[p := l], procs[p := pr], loc[s := to])
  {
    forall q | q in links && q != p ensures LinkOk(q, links[q], procs[q].sent, loc[s := to]) {
      LinkFrame(q, links[q], procs[q].sent, loc, s, to);
    }
  }

  lemma LinksSet(links: map<Text, Link>, procs: map<Text, ProcessInfo>, loc: Map, p: Text, l: Link, pr: ProcessInfo)
    requires LinksOk(links, procs, loc) && LinkOk(p, l, pr.sent, loc)
    ensures LinksOk(links[p := l], procs[p := pr], loc)
  {
  }

  lemma LinksFrame(links: map<Text, Link>, procs: map<Text, ProcessInfo>, loc: Map, s: Text, to: Loc)
    requires LinksOk(links, procs, loc)
    requires s in loc ==> !loc[s].Listed?
    ensures LinksOk(links, procs, loc[s := to])
  {
    forall q | q in links ensures LinkOk(q, links[q], procs[q].sent, loc[s := to]) {
      LinkFrame(q, links[q], procs[q].sent, loc, s, to);
    }
  }

  lemma LinkRequest(p: Text, l: Link, sent: seq<Request>, loc: Map, r: Request)
    requires LinkOk(p, l, sent, loc)
    requires r.session in loc ==> !Travels(loc[r.session], p)
    ensures LinkOk(p, l, sent + [r], loc[r.session := Listed(p, Phase.Asked)])
  {
    LinkFrame(p, l, sent, loc, r.session, Listed(p, Phase.Asked));
  }

  /** The capacity argument: what a runtime hosts is on the control plane's list, the session it is
      asked for is on that list and not hosted yet, and the list has at most max_sessions entries. */
  lemma AllocationSucceeds(p: Text, l: Link, sent: seq<Request>, loc: Map, list: seq<Text>)
    requires LinkOk(p, l, sent, loc) && l.taken < |sent|
    requires NoDup(list) && |list| <= MAX_SESSIONS_PER_PROCESS
    requires forall s :: s in list <==> On(loc, s, p)
    ensures |l.forks| < AsSize(l.maxSessions) && !Hosts(l.forks, sent[l.taken].session)
  {
    var hosted := seq(|l.forks|, k requires 0 <= k < |l.forks| => l.forks[k].session);
    var x := sent[l.taken].session;
    NoDupSize(hosted);
    NoDupSize(list);
    var a, b := set s | s in hosted, set s | s in list;
    assert x in b && x !in a;
    assert a <= b - {x} by {
      forall s | s in a ensures s in b - {x} {
        var k :| 0 <= k < |hosted| && hosted[k] == s;
        assert At(loc, l.forks[k].session, Listed(p, Hosted));
      }
    }
    SubsetSize(a, b - {x});
  }

  lemma {:induction false} SubsetSize<T>(a: set<T>, b: set<T>)
    requires a <= b
    ensures |a| <= |b|
    decreases a
  {
    if a != {} {
      var x :| x in a;
      SubsetSize(a - {x}, b - {x});
    }
  }

  lemma LinkAllocate(p: Text, l: Link, sent: seq<Request>, loc: Map, f: Fork, m: UpMessage)
    requires LinkOk(p, l, sent, loc) && l.taken < |sent| && f.session == sent[l.taken].session
    requires m.Status? && Allowed(m)
    ensures LinkOk(p, l.(taken := l.taken + 1, forks := l.forks + [f], reply := Some(m)), sent,
                   loc[f.session := Listed(p, Hosted)])
  {
  }

  lemma LinkReply(p: Text, l: Link, sent: seq<Request>, loc: Map)
    requires LinkOk(p, l, sent, loc) && l.reply.Some?
    ensures LinkOk(p, l.(reply := None, up := l.up + [l.reply.value]), sent, loc)
  {
  }

  lemma LinkDelete(p: Text, l: Link, sent: seq<Request>, loc: Map, k: nat, c: Closure)
    requires LinkOk(p, l, sent, loc) && k < |l.forks| && c.session == l.forks[k].session
    ensures LinkOk(p, l.(forks := RemoveAt(l.forks, k), closing := l.closing + multiset{c}), sent,
                   loc[c.session := Listed(p, Ending)])
  {
    assert At(loc, c.session, Listed(p, Hosted));
    assert c !in l.closing;
  }

  lemma LinkReport(p: Text, l: Link, sent: seq<Request>, loc: Map, c: Closure)
    requires LinkOk(p, l, sent, loc) && c in l.closing
    ensures LinkOk(p, l.(closing := l.closing - multiset{c}, up := l.up + [Closed(c)]), sent,
                   loc[c.session := Listed(p, Reported)])
  {
    assert At(loc, c.session, Listed(p, Ending));
  }

  lemma LinkTake(p: Text, l: Link, sent: seq<Request>, loc: Map, j: nat)
    requires LinkOk(p, l, sent, loc) && l.up != []
    ensures l.up[0].Closed? ==>
      LinkOk(p, l.(up := l.up[1..]), sent, loc[l.up[0].closure.session := Listed(p, Taken(j))])
    ensures !l.up[0].Closed? ==> LinkOk(p, l.(up := l.up[1..]), sent, loc)
  {
  }
}
