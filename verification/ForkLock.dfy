/** Why _sessions_mutex spans everything from the insertion of an entry to the assignment of its pid: a child
    may end, and its deletion thread may start, before the parent has stored the pid. One action here is
    one moment at which another thread can get in between. */
module ForkLock {
  import opened Bytes
  import opened MemorySize
  import opened Tables
  import opened RuntimeSessions
  import opened RuntimeProcess

  /** Where allocate_session is: not in its critical section; after emplace_back; after vfork. */
  datatype Stage = Outside | Inserted(request: Request) | Forked(request: Request, pid: int32)

  /** The critical sections that were left, in order. */
  datatype Section = Allocated(request: Request, outcome: Outcome) | Deleted(pid: int32)

  /** `running` and `waiting` are the children before and after their end, the latter with a deletion thread
      that has not run yet; `missed` are those whose thread found no entry. Auxiliary: `hosted` says which
      session each child was started for, `log` which sections were left. */
  datatype State = State(
    forks: seq<Fork>, stage: Stage, running: set<int32>, waiting: set<int32>, missed: set<int32>,
    hosted: map<int32, Text>, log: seq<Section>)

  const INIT := State([], Outside, {}, {}, {}, map[], [])

  datatype Action =
    | Insert(r: Request)
    | Refuse(r: Request)
    | FailMemory
    | FailFork
    | Spawn(pid: int32)
    | Assign
    | Die(pid: int32)
    | Delete(pid: int32)

  predicate Refused(forks: seq<Fork>, max: int16, r: Request) { |forks| >= AsSize(max) || Hosts(forks, r.session) }

  /** With `locked` false the deletion thread does not wait for the mutex. */
  predicate Enabled(st: State, max: int16, locked: bool, a: Action) {
    match a
    case Insert(r) => st.stage.Outside? && !Refused(st.forks, max, r)
    case Refuse(r) => st.stage.Outside? && Refused(st.forks, max, r)
    case FailMemory => st.stage.Inserted?
    case FailFork => st.stage.Inserted?
    case Spawn(pid) => st.stage.Inserted? && pid > 0 && pid !in st.running + st.waiting + st.missed
    case Assign => st.stage.Forked? && st.forks != []
    case Die(pid) => pid in st.running
    case Delete(pid) => pid in st.waiting && (locked ==> st.stage.Outside?)
  }

  function Apply(st: State, max: int16, locked: bool, a: Action): (st': State)
    requires Enabled(st, max, locked, a)
  {
    match a
    case Insert(r) =>
      st.(forks := st.forks + [Fork(r.session, r.maxFunctions, r.memory, -1, -1)], stage := Inserted(r))
    case Refuse(r) => st.(log := st.log + [Allocated(r, NoMemory)])
    case FailMemory => st.(stage := Outside, log := st.log + [Allocated(st.stage.request, NoMemory)])
    case FailFork => Leave(st, st.stage.request, NoChild)
    case Spawn(pid) =>
      st.(stage := Forked(st.stage.request, pid), running := st.running + {pid},
          hosted := st.hosted[pid := st.stage.request.session])
    case Assign => Leave(st, st.stage.request, Child(st.stage.pid))
    case Die(pid) => st.(running := st.running - {pid}, waiting := st.waiting + {pid})
    case Delete(pid) =>
      var k := FindPid(st.forks, pid);
      var st' := st.(waiting := st.waiting - {pid}, log := st.log + [Deleted(pid)]);
      if k == |st.forks| then st'.(missed := st.missed + {pid}) else st'.(forks := RemoveAt(st.forks, k))
  }

  /** The pid and the memory are stored in the last entry, and the mutex is released. */
  function Leave(st: State, r: Request, o: Outcome): (st': State) {
    st.(stage := Outside, log := st.log + [Allocated(r, o)],
        forks := if st.forks == [] then [] else st.forks[..|st.forks| - 1] + [RuntimeSessions.Forked(r, o)])
  }

  function Exec(acts: seq<Action>, max: int16, locked: bool): (r: Option<State>) {
    if acts == [] then Some(INIT)
    else
      match Exec(acts[..|acts| - 1], max, locked)
      case None => None
      case Some(st) =>
        var last := acts[|acts| - 1];
        if Enabled(st, max, locked, last) then Some(Apply(st, max, locked, last)) else None
  }

  /** What a section does when nothing gets in between. */
  function Whole(forks: seq<Fork>, x: Section, max: int16): (r: seq<Fork>) {
    match x
    case Allocated(r, o) => Allocate(forks, max, r, o).0
    case Deleted(pid) => var k := FindPid(forks, pid); if k == |forks| then forks else RemoveAt(forks, k)
  }

  function Replay(log: seq<Section>, max: int16): (r: seq<Fork>) {
    if log == [] then [] else Whole(Replay(log[..|log| - 1], max), log[|log| - 1], max)
  }

  // ----- the invariant

  ghost predicate Listed(forks: seq<Fork>, pid: int32, s: Text) {
    exists k :: 0 <= k < |forks| && forks[k].pid == pid && forks[k].session == s
  }

  /** Every child that was not waited for is on the list under its session, unless its pid is about to be stored. */
  ghost predicate ChildrenOk(st: State) {
    && st.missed == {} && st.running !! st.waiting
    && (forall pid :: pid in st.running + st.waiting ==> pid > 0 && pid in st.hosted)
    && (forall pid :: pid in st.running + st.waiting ==>
          if st.stage.Forked? && st.stage.pid == pid then st.hosted[pid] == st.stage.request.session
          else Listed(st.forks, pid, st.hosted[pid]))
    && (forall k :: 0 <= k < |st.forks| && st.forks[k].pid > 0 ==> st.forks[k].pid in st.running + st.waiting)
    && (st.stage.Forked? ==> st.stage.pid in st.running + st.waiting && FindPid(st.forks, st.stage.pid) == |st.forks|)
  }

  ghost predicate ListOk(st: State, max: int16) {
    && GoodList(st.forks, max)
    && if st.stage.Outside? then st.forks == Replay(st.log, max)
       else
         var r := st.stage.request;
         && !Refused(Replay(st.log, max), max, r)
         && st.forks == Replay(st.log, max) + [Fork(r.session, r.maxFunctions, r.memory, -1, -1)]
  }

  ghost predicate Inv(st: State, max: int16) { ChildrenOk(st) && ListOk(st, max) }

  lemma {:induction false} ReplayMore(log: seq<Section>, x: Section, max: int16)
    ensures Replay(log + [x], max) == Whole(Replay(log, max), x, max)
  {
    assert (log + [x])[..|log + [x]| - 1] == log;
  }

  /** Leaving the section with an outcome has the effect of the whole of allocate_session at once. */
  lemma LeaveOk(st: State, max: int16, o: Outcome)
    requires ListOk(st, max) && st.stage != Outside && FreshChild(st.forks, o)
    ensures ListOk(Leave(st, st.stage.request, o), max)
    ensures Leave(st, st.stage.request, o).forks == Replay(st.log, max) + [RuntimeSessions.Forked(st.stage.request, o)]
  {
    var r := st.stage.request;
    var before := Replay(st.log, max);
    ReplayMore(st.log, Allocated(r, o), max);
    assert st.forks[..|st.forks| - 1] == before;
    FindPidMisses(before, if o.Child? then o.pid else 0);
    FindPidMisses(st.forks, if o.Child? then o.pid else 0);
    AppendKeepsGood(before, max, RuntimeSessions.Forked(r, o));
  }

  lemma ListStep(st: State, max: int16, a: Action)
    requires Inv(st, max) && Enabled(st, max, true, a)
    ensures ListOk(Apply(st, max, true, a), max)
  {
    match a
    case Insert(r) => AppendKeepsGood(st.forks, max, Fork(r.session, r.maxFunctions, r.memory, -1, -1));
    case Refuse(r) => ReplayMore(st.log, Allocated(r, NoMemory), max);
    case FailMemory =>
      ReplayMore(st.log, Allocated(st.stage.request, NoMemory), max);
    case FailFork => LeaveOk(st, max, NoChild);
    case Spawn(pid) =>
    case Assign => LeaveOk(st, max, Child(st.stage.pid));
    case Die(pid) =>
    case Delete(pid) =>
      ReplayMore(st.log, Deleted(pid), max);
      var k := FindPid(st.forks, pid);
      if k < |st.forks| {
        RemoveKeepsGood(st.forks, max, k);
      }
  }

  /** An entry was added, or an entry of another child was replaced at the end or removed. */
  predicate Spares(forks: seq<Fork>, forks': seq<Fork>, k: nat, pid: int32) {
    || forks <= forks'
    || (forks != [] && forks[|forks| - 1].pid != pid && forks[..|forks| - 1] <= forks')
    || (k < |forks| && forks[k].pid != pid && forks' == RemoveAt(forks, k))
  }

  lemma ListedAfter(forks: seq<Fork>, forks': seq<Fork>, k: nat, pid: int32, s: Text)
    requires Listed(forks, pid, s)
    requires Spares(forks, forks', k, pid)
    ensures Listed(forks', pid, s)
  {
    var i :| 0 <= i < |forks| && forks[i].pid == pid && forks[i].session == s;
    if forks <= forks' {
      assert forks'[i] == forks[i];
    } else if forks != [] && forks[|forks| - 1].pid != pid && forks[..|forks| - 1] <= forks' {
      assert forks'[i] == forks[..|forks| - 1][i];
    } else {
      assert forks'[if i < k then i else i - 1] == forks[i];
    }
  }

  lemma ChildrenStep(st: State, max: int16, a: Action)
    requires Inv(st, max) && Enabled(st, max, true, a)
    ensures ChildrenOk(Apply(st, max, true, a))
  {
    match a
    case Insert(r) =>
      hide Replay, Allocate, GoodList, Refused;
      ChildrenKept(st, Apply(st, max, true, a), 0);
    case Refuse(r) =>
    case FailMemory =>
    case FailFork => LeaveKeeps(st, max, NoChild);
    case Spawn(pid) => FindPidMisses(st.forks, pid);
    case Assign => LeaveKeeps(st, max, Child(st.stage.pid));
    case Die(pid) =>
    case Delete(pid) => DeleteKeeps(st, max, pid);
  }

  /** Only the last entry and the stage change, and the entry gets the pid of the child, if there is one. */
  lemma LeaveShape(st: State, max: int16, o: Outcome)
    requires ListOk(st, max) && !st.stage.Outside?
    ensures
      var forks := Leave(st, st.stage.request, o).forks;
      && st.forks != [] && st.forks[|st.forks| - 1].pid == -1 && |forks| == |st.forks|
      && (forall k :: 0 <= k < |forks| - 1 ==> forks[k] == st.forks[k])
      && forks[|forks| - 1].session == st.stage.request.session
      && forks[|forks| - 1].pid == if o.Child? then o.pid else -1
  {
    hide GoodList, Replay, SegmentBytes;
  }

  lemma LeaveKeeps(st: State, max: int16, o: Outcome)
    requires Inv(st, max) && !st.stage.Outside?
    requires if st.stage.Forked? then o == Child(st.stage.pid) else !o.Child?
    ensures ChildrenOk(Leave(st, st.stage.request, o))
  {
    hide GoodList, Replay, Allocate, SegmentBytes;
    LeaveShape(st, max, o);
    var st' := Leave(st, st.stage.request, o);
    assert o.Child? ==> Listed(st'.forks, o.pid, st.stage.request.session);
    assert (st'.running, st'.waiting, st'.missed, st'.hosted) == (st.running, st.waiting, st.missed, st.hosted);
    assert st'.stage.Outside? && st.forks[..|st.forks| - 1] <= st'.forks;
    hide ListOk, FindPid, Listed, Leave, RuntimeSessions.Forked;
    ChildrenKept(st, st', 0);
  }

  lemma ChildrenKept(st: State, st': State, k: nat)
    requires ChildrenOk(st) && st'.running + st'.waiting <= st.running + st.waiting
    requires forall pid :: pid in st'.running + st'.waiting ==> Spares(st.forks, st'.forks, k, pid)
    ensures forall pid :: pid in st'.running + st'.waiting && Listed(st.forks, pid, st.hosted[pid]) ==>
      Listed(st'.forks, pid, st.hosted[pid])
  {
    forall pid | pid in st'.running + st'.waiting && Listed(st.forks, pid, st.hosted[pid])
      ensures Listed(st'.forks, pid, st.hosted[pid])
    {
      ListedAfter(st.forks, st'.forks, k, pid, st.hosted[pid]);
    }
  }

  /** The deletion thread of a child finds the entry of the session that the child was started for. */
  lemma DeleteFinds(st: State, max: int16, pid: int32)
    requires Inv(st, max) && pid in st.waiting && st.stage.Outside?
    ensures var k := FindPid(st.forks, pid); k < |st.forks| && st.forks[k].session == st.hosted[pid]
  {
    assert Listed(st.forks, pid, st.hosted[pid]);
    FindPidMisses(st.forks, pid);
  }

  lemma DeleteKeeps(st: State, max: int16, pid: int32)
    requires Inv(st, max) && Enabled(st, max, true, Delete(pid))
    ensures ChildrenOk(Apply(st, max, true, Delete(pid)))
  {
    DeleteFinds(st, max, pid);
    var st' := Apply(st, max, true, Delete(pid));
    var k := FindPid(st.forks, pid);
    RemoveKeepsGood(st.forks, max, k);
    hide Replay, Allocate, GoodList, ListOk, Listed, FindPid, RemoveAt;
    assert pid !in st'.running + st'.waiting;
    ChildrenKept(st, st', k);
    forall i | 0 <= i < |st'.forks| && st'.forks[i].pid > 0 ensures st'.forks[i].pid in st'.running + st'.waiting {
      RemoveAtElement(st.forks, k, i);
    }
  }

  lemma RemoveAtElement(forks: seq<Fork>, k: nat, i: nat)
    requires k < |forks| && i < |RemoveAt(forks, k)|
    ensures RemoveAt(forks, k)[i] in forks
  {
  }

  // ----- results

  lemma {:induction false} RunInv(acts: seq<Action>, max: int16)
    requires Exec(acts, max, true).Some?
    ensures Inv(Exec(acts, max, true).value, max)
  {
    if acts == [] {
    } else {
      var before, last := acts[..|acts| - 1], acts[|acts| - 1];
      RunInv(before, max);
      ListStep(Exec(before, max, true).value, max, last);
      ChildrenStep(Exec(before, max, true).value, max, last);
    }
  }

  /** After any run: ids on the list are distinct, so are the children's pids, and the list is within bounds. */
  lemma ListAlwaysGood(acts: seq<Action>, max: int16, st: State)
    requires Exec(acts, max, true) == Some(st)
    ensures GoodList(st.forks, max)
  {
    RunInv(acts, max);
  }

  /** A deletion thread always finds the entry of the session its child was started for, however soon after
      the fork the child ended. */
  lemma ChildAlwaysFound(acts: seq<Action>, max: int16, st: State, pid: int32)
    requires Exec(acts, max, true) == Some(st) && Enabled(st, max, true, Delete(pid))
    ensures pid in st.hosted && st.missed == {}
    ensures var k := FindPid(st.forks, pid); k < |st.forks| && st.forks[k].session == st.hosted[pid]
  {
    RunInv(acts, max);
    DeleteFinds(st, max, pid);
  }

  /** Whenever the mutex is free, the list is what the sections left so far produce one after the other. */
  lemma SectionsAreAtomic(acts: seq<Action>, max: int16, st: State)
    requires Exec(acts, max, true) == Some(st) && st.stage.Outside?
    ensures st.forks == Replay(st.log, max)
  {
    RunInv(acts, max);
  }

  /** In every interleaving the mutex is released again, and while it is free any request is either taken in or
      refused, the latter exactly if the list is full or has the session, and any ended child's thread runs. */
  lemma NeverBlocked(acts: seq<Action>, max: int16, st: State, r: Request, pid: int32)
    requires Exec(acts, max, true) == Some(st)
    ensures match st.stage
      case Inserted(_) => Enabled(st, max, true, FailMemory) && Enabled(st, max, true, FailFork)
        && (pid > 0 && pid !in st.hosted ==> Enabled(st, max, true, Spawn(pid)))
      case Forked(_, _) => Enabled(st, max, true, Assign)
      case Outside =>
        && (pid in st.waiting ==> Enabled(st, max, true, Delete(pid)))
        && (Enabled(st, max, true, Insert(r)) <==>
              |st.forks| < AsSize(max) && forall k :: 0 <= k < |st.forks| ==> st.forks[k].session != r.session)
        && (Enabled(st, max, true, Refuse(r)) <==> !Enabled(st, max, true, Insert(r)))
    ensures pid in st.running ==> Enabled(st, max, true, Die(pid))
  {
    hide Exec, GoodList, Replay;
    RunInv(acts, max);
  }

  /** Without the mutex a child that ends between vfork and the assignment of its pid is missed, and its entry
      stays for good. */
  lemma LockNeeded(r: Request, pid: int32) returns (acts: seq<Action>, st: State)
    requires pid > 0
    ensures acts == [Insert(r), Spawn(pid), Die(pid), Delete(pid), Assign]
    ensures Exec(acts, 4, false) == Some(st)
    ensures st.missed == {pid} && st.forks == [RuntimeSessions.Forked(r, Child(pid))] && st.running + st.waiting == {}
  {
    hide Exec;
    acts, st := RunNone(), INIT;
    acts, st := RunOne(acts, 4, st, Insert(r)), Apply(st, 4, false, Insert(r));
    assert st.forks == [Fork(r.session, r.maxFunctions, r.memory, -1, -1)];
    acts, st := RunOne(acts, 4, st, Spawn(pid)), Apply(st, 4, false, Spawn(pid));
    acts, st := RunOne(acts, 4, st, Die(pid)), Apply(st, 4, false, Die(pid));
    assert FindPid(st.forks, pid) == 1;
    acts, st := RunOne(acts, 4, st, Delete(pid)), Apply(st, 4, false, Delete(pid));
    acts, st := RunOne(acts, 4, st, Assign), Apply(st, 4, false, Assign);
  }

  ghost function RunNone(): (acts: seq<Action>)
    ensures acts == [] && Exec(acts, 4, false) == Some(INIT)
  {
    []
  }

  ghost function RunOne(acts: seq<Action>, max: int16, st: State, a: Action): (acts': seq<Action>)
    requires Exec(acts, max, false) == Some(st) && Enabled(st, max, false, a)
    ensures acts' == acts + [a] && Exec(acts', max, false) == Some(Apply(st, max, false, a))
  {
    assert (acts + [a])[..|acts + [a]| - 1] == acts;
    acts + [a]
  }
}
