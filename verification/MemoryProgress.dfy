/** The local memory server answers: no set of requests under way can block each other for good, and without new
    requests only a bounded number of steps is left, whatever the schedule. */
module MemoryProgress {
  import opened Bytes
  import opened MemoryOps
  import opened MemoryServer

  // ----- somebody can always go on

  predicate Internal(a: Action) { !a.Invoke? }

  /** Whoever holds an accessor of a node can go on. */
  lemma HolderGoesOn(st: State, c: nat, n: nat) returns (a: Action)
    requires c in st.clients && Holds(st.clients[c], n) && HeldOk(st.clients, st.lingering, st.nodes)
    requires Writes(st.clients[c], n) ==> HasValue(st.clients[c].op)
    ensures Enabled(st, a) && Internal(a)
  {
    match st.clients[c].stage
    case Writing(_, _) => a := Assign(c);
    case Opened(_) => a := WriteHeader(c);
    case HeaderWritten(_, _) => a := WriteBody(c);
  }

  /** If a node is not free, somebody who holds it, or its accessor's release, can go on. */
  lemma NotFreeGoesOn(st: State, n: nat) returns (a: Action)
    requires !Free(st, n) && HeldOk(st.clients, st.lingering, st.nodes)
    requires forall c :: c in st.clients && Writes(st.clients[c], n) ==> HasValue(st.clients[c].op)
    ensures Enabled(st, a) && Internal(a)
  {
    hide HeldOk;
    if n in st.lingering {
      a := Release(n);
    } else {
      var c :| c in st.clients && Holds(st.clients[c], n);
      a := HolderGoesOn(st, c, n);
    }
  }

  lemma WriterHasValue(st: State, c: nat, n: nat)
    requires RequestsOk(st.clients, st.nodes, st.log, st.pos) && c in st.clients && Writes(st.clients[c], n)
    ensures HasValue(st.clients[c].op)
  {
    assert RequestOk(st.clients[c], st.nodes, st.log, st.pos);
  }

  /** Whatever a request waits for, some worker can go on. */
  lemma RequestGoesOn(st: State, c: nat) returns (a: Action)
    requires c in st.clients && HeldOk(st.clients, st.lingering, st.nodes)
    requires TableOk(st.table, st.nodes, st.unused)
    requires forall d, n :: d in st.clients && Writes(st.clients[d], n) ==> HasValue(st.clients[d].op)
    ensures Enabled(st, a) && Internal(a)
  {
    hide HeldOk;
    var r := st.clients[c];
    match r.stage
    case Queued => a := QueuedGoesOn(st, c);
    case Unlinked(n) =>
      if Free(st, n) {
        a := Destroy(c);
      } else {
        a := NotFreeGoesOn(st, n);
      }
    case Finished(_) => a := Respond(c);
    case Writing(n, _) => a := HolderGoesOn(st, c, n);
    case Opened(n) => a := HolderGoesOn(st, c, n);
    case HeaderWritten(n, _) => a := HolderGoesOn(st, c, n);
  }

  lemma QueuedGoesOn(st: State, c: nat) returns (a: Action)
    requires At(st, c, Queued) && HeldOk(st.clients, st.lingering, st.nodes)
    requires TableOk(st.table, st.nodes, st.unused)
    requires forall d, n :: d in st.clients && Writes(st.clients[d], n) ==> HasValue(st.clients[d].op)
    ensures Enabled(st, a) && Internal(a)
  {
    hide HeldOk, Key;
    var k := KeyOf(st, c);
    if st.clients[c].op.Delete? {
      a := Unlink(c);
    } else if k in st.table && !Free(st, st.table[k]) {
      a := NotFreeGoesOn(st, st.table[k]);
    } else {
      a := match st.clients[c].op case Create(_, _) => InsertKey(c) case Put(_, _) => Locate(c) case _ => Open(c);
    }
  }

  /** After any run: as long as a request is under way or an accessor held, some worker can go on. */
  lemma NeverBlocked(acts: seq<Action>, st: State) returns (a: Action)
    requires Exec(acts) == Some(st) && (st.clients != map[] || st.lingering != multiset{})
    ensures Enabled(st, a) && Internal(a)
  {
    hide Exec, MapPart, LogPart, RequestOk, Enabled, TableOk, HeldOk;
    RunInv(acts);
    MapFacts(st);
    LogFacts(st);
    hide RequestsOk, NodesPart;
    forall d, n | d in st.clients && Writes(st.clients[d], n) ensures HasValue(st.clients[d].op) {
      WriterHasValue(st, d, n);
    }
    if st.clients != map[] {
      var c :| c in st.clients;
      a := RequestGoesOn(st, c);
    } else {
      var n :| n in st.lingering;
      a := ReleaseGoesOn(st, n);
    }
  }

  lemma ReleaseGoesOn(st: State, n: nat) returns (a: Action)
    requires n in st.lingering
    ensures Enabled(st, a) && Internal(a)
  {
    a := Release(n);
  }

  // ----- and not for ever

  /** How many steps a request has before it, releases included. */
  function Rank(r: Request): (n: nat) {
    match r.stage
    case Queued => 5
    case Opened(_) => 4
    case HeaderWritten(_, _) => 3
    case Writing(_, _) => 2
    case Unlinked(_) => 2
    case Finished(_) => 1
  }

  ghost function Steps(clients: map<nat, Request>): (steps: set<(nat, nat)>) {
    set c, k | c in clients && 0 <= k < Rank(clients[c]) :: (c, k)
  }

  /** An upper bound of the steps that are left. */
  ghost function Work(st: State): (n: nat) { |Steps(st.clients)| + |st.lingering| }

  lemma {:induction false} StepsLess(clients: map<nat, Request>, c: nat)
    requires c in clients
    ensures |Steps(clients)| == |Steps(clients - {c})| + Rank(clients[c])
  {
    var own := set k | 0 <= k < Rank(clients[c]) :: (c, k);
    assert Steps(clients) == Steps(clients - {c}) + own;
    OwnSteps(c, Rank(clients[c]));
  }

  lemma {:induction false} OwnSteps(c: nat, n: nat)
    ensures |set k | 0 <= k < n :: (c, k)| == n
  {
    if n > 0 {
      OwnSteps(c, n - 1);
      assert (set k | 0 <= k < n :: (c, k)) == (set k | 0 <= k < n - 1 :: (c, k)) + {(c, n - 1)};
    }
  }

  lemma StepsSet(clients: map<nat, Request>, c: nat, r: Request)
    requires c in clients
    ensures |Steps(clients[c := r])| + Rank(clients[c]) == |Steps(clients)| + Rank(r)
  {
    StepsLess(clients, c);
    StepsLess(clients[c := r], c);
    assert clients[c := r] - {c} == clients - {c};
  }

  /** What a step does to the one request that it is about, and to the accessors. */
  lemma StepRanks(st: State, a: Action)
    requires Enabled(st, a) && Internal(a) && !a.Release? && !a.Respond?
    ensures a.c in st.clients && a.c in Apply(st, a).clients
    ensures
      var st' := Apply(st, a);
      && st'.clients == st.clients[a.c := st'.clients[a.c]]
      && Rank(st'.clients[a.c]) + |st'.lingering| < Rank(st.clients[a.c]) + |st.lingering|
  {
    hide Free, NoWriter, Key;
  }

  /** Every step of a worker leaves less to do. */
  lemma WorkStep(st: State, a: Action)
    requires Enabled(st, a) && Internal(a)
    ensures Work(Apply(st, a)) < Work(st)
  {
    hide Steps, Rank;
    if a.Release? {
      ReleaseWork(st, a);
    } else if a.Respond? {
      RespondWork(st, a);
    } else {
      StepRanks(st, a);
      hide Enabled, Apply;
      StepsSet(st.clients, a.c, Apply(st, a).clients[a.c]);
    }
  }

  lemma ReleaseWork(st: State, a: Action)
    requires Enabled(st, a) && a.Release?
    ensures Work(Apply(st, a)) < Work(st)
  {
    hide Steps;
  }

  lemma RespondWork(st: State, a: Action)
    requires Enabled(st, a) && a.Respond?
    ensures Work(Apply(st, a)) < Work(st)
  {
    hide Steps;
    StepsLess(st.clients, a.c);
  }

  lemma LastStep(acts: seq<Action>, more: seq<Action>, st': State) returns (middle: State)
    requires more != [] && Exec(acts + more) == Some(st')
    ensures Exec(acts + more[..|more| - 1]) == Some(middle)
    ensures Enabled(middle, more[|more| - 1]) && st' == Apply(middle, more[|more| - 1])
  {
    hide Enabled, Apply;
    assert (acts + more)[..|acts + more| - 1] == acts + more[..|more| - 1];
    assert (acts + more)[|acts + more| - 1] == more[|more| - 1];
    middle := Exec(acts + more[..|more| - 1]).value;
  }

  /** From any moment on, without new requests, every schedule comes to an end: it has no more steps than there was
      work. */
  lemma {:induction false} BoundedWork(acts: seq<Action>, st: State, more: seq<Action>, st': State)
    requires Exec(acts) == Some(st) && Exec(acts + more) == Some(st') && forall a :: a in more ==> Internal(a)
    ensures Work(st') + |more| <= Work(st)
    decreases |more|
  {
    hide Exec, Enabled, Apply, Work;
    if more == [] {
      assert acts + more == acts;
    } else {
      var middle := LastStep(acts, more, st');
      BoundedWork(acts, st, more[..|more| - 1], middle);
      WorkStep(middle, more[|more| - 1]);
    }
  }

  lemma Next(acts: seq<Action>, st: State, a: Action)
    requires Exec(acts) == Some(st) && Enabled(st, a)
    ensures Exec(acts + [a]) == Some(Apply(st, a))
  {
    hide Enabled, Apply;
    assert (acts + [a])[..|acts + [a]| - 1] == acts;
  }

  /** And it ends with every request answered and every accessor released: from any moment on the workers can get
      there. */
  lemma EveryRequestCompletes(acts: seq<Action>, st: State) returns (more: seq<Action>, st': State)
    requires Exec(acts) == Some(st)
    ensures Exec(acts + more) == Some(st') && forall a :: a in more ==> Internal(a)
    ensures st'.clients == map[] && st'.lingering == multiset{}
    decreases Work(st)
  {
    hide Exec, Enabled, Apply;
    if st.clients == map[] && st.lingering == multiset{} {
      more, st' := [], st;
      assert acts + more == acts;
    } else {
      var a := NeverBlocked(acts, st);
      Next(acts, st, a);
      WorkStep(st, a);
      var rest;
      rest, st' := EveryRequestCompletes(acts + [a], Apply(st, a));
      more := [a] + rest;
      assert acts + [a] + rest == acts + more;
    }
  }
}
