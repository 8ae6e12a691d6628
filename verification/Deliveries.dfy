/** The invocations of a session over a whole run: each time the session identifies itself its queue goes out as
    one stream, and a receiver that reads every stream to its end gets what was submitted. */
module Deliveries {
  import opened Bytes
  import opened SessionRecord
  import opened Tables
  import opened RuntimeSessions
  import opened Protocol
  import B = BufferPool
  import S = InvocationStream
  import Theorems

  /** Everything that was written to the connections of s. */
  function Delivered(t: Tables, s: Text): (d: seq<Invocation>) {
    if s in t.sessions then t.sessions[s].delivered else []
  }

  function Queued(t: Tables, s: Text): (q: seq<Invocation>) {
    if s in t.sessions then t.sessions[s].queue else []
  }

  /** The queue that goes out when s identifies itself. */
  function Sent(st: State, a: Action, s: Text): (q: seq<Invocation>) {
    if a == DrainSession(s) then Queued(st.tables, s) else []
  }

  /** What a receiver makes of the stream of one action. */
  function Received(st: State, a: Action, s: Text, pools: nat -> seq<B.Buffer>): (r: seq<Invocation>) {
    if a == DrainSession(s) && s in st.tables.sessions then
      S.Invocations(S.ReceiveAll(S.SendAll(Queued(st.tables, s)), pools, 0))
    else []
  }

  /** All that the receivers of s got; pools(n) are the buffers of the receiver of the n-th action's stream. */
  ghost function Arrived(acts: seq<Action>, s: Text, pools: nat -> nat -> seq<B.Buffer>): (r: seq<Invocation>)
    requires Exec(acts).Some?
  {
    if acts == [] then []
    else
      var before := acts[..|acts| - 1];
      Arrived(before, s, pools) + Received(Exec(before).value, acts[|acts| - 1], s, pools(|before|))
  }

  lemma {:induction false} AskedDelivered(t: Tables, p: Text, list: seq<Text>, s: Text)
    requires p in t.processes
    ensures Delivered(RequestAll(t, p, list), s) == Delivered(t, s)
    decreases |list|
  {
    if list != [] {
      AskedDelivered(RequestOne(t, p, list[0]), p, list[1..], s);
    }
  }

  lemma PlacedDelivered(st: State, a: Action, s: Text)
    requires a.PlaceSession? && Enabled(st, a)
    ensures Delivered(Apply(st, a).tables, s) == Delivered(st.tables, s)
  {
    hide Drops, Submitted;
  }

  lemma IdentifiedDelivered(st: State, a: Action, s: Text)
    requires a.Identify? && Enabled(st, a)
    ensures Delivered(Apply(st, a).tables, s) == Delivered(st.tables, s)
  {
    hide Delivered, RequestAll;
    AskedDelivered(st.tables, a.p, st.tables.processes[a.p].sessions, s);
  }

  lemma DrainedDelivered(st: State, a: Action, s: Text)
    requires a.DrainSession?
    ensures Delivered(Apply(st, a).tables, s) == Delivered(st.tables, s) + Sent(st, a, s)
  {
  }

  /** Critical sections and table accesses that change processes only. */
  predicate OnProcesses(a: Action) { a.ReserveFree? || a.AddProcess? || a.RemoveSession? || a.AttachProcess? }

  lemma ProcessesDelivered(st: State, a: Action, s: Text)
    requires OnProcesses(a) && Enabled(st, a)
    ensures Delivered(Apply(st, a).tables, s) == Delivered(st.tables, s)
  {
    hide FreshUuid, HasRoom, IndexOf, NewProcess;
  }

  lemma TablesStay(st: State, a: Action)
    requires !OnProcesses(a) && !a.PlaceSession? && !a.Identify? && !a.DrainSession? && Enabled(st, a)
    ensures Apply(st, a).tables == st.tables
  {
    hide FreshUuid, HasRoom, Allocate, FindPid, PrintRecord, ParseRecord;
  }

  /** Only an identification of s writes to its connections. */
  lemma DeliveredStep(st: State, a: Action, s: Text)
    requires Enabled(st, a)
    ensures Delivered(Apply(st, a).tables, s) == Delivered(st.tables, s) + Sent(st, a, s)
  {
    hide Enabled, Apply, Delivered;
    if a.PlaceSession? {
      PlacedDelivered(st, a, s);
    } else if a.Identify? {
      IdentifiedDelivered(st, a, s);
    } else if a.DrainSession? {
      DrainedDelivered(st, a, s);
    } else if OnProcesses(a) {
      ProcessesDelivered(st, a, s);
    } else {
      TablesStay(st, a);
    }
  }

  /** One stream: as received, or different from the first item on that is not well formed. */
  lemma ReceivedStep(st: State, a: Action, s: Text, pools: nat -> seq<B.Buffer>)
    requires S.AllReady(pools)
    ensures
      var received, sent := Received(st, a, s, pools), Sent(st, a, s);
      && (if S.AllWellFormed(sent) then received == sent else S.Diverges(received, sent))
      && forall x :: x in received ==> S.ProperName(x.name)
  {
    hide S.ReceiveAll, S.SendAll, S.WellFormed, S.ProperName, S.Diverges, S.Invocations;
    S.StreamArrives(Queued(st.tables, s), pools);
    S.NamesReceived(S.SendAll(Queued(st.tables, s)), pools, 0);
  }

  lemma WellFormedSum(q: seq<Invocation>, q': seq<Invocation>)
    ensures S.AllWellFormed(q + q') <==> S.AllWellFormed(q) && S.AllWellFormed(q')
  {
    hide S.WellFormed;
    if S.AllWellFormed(q + q') {
      forall j | 0 <= j < |q| ensures S.WellFormed(q[j]) {
        assert (q + q')[j] == q[j];
      }
      forall j | 0 <= j < |q'| ensures S.WellFormed(q'[j]) {
        assert (q + q')[|q| + j] == q'[j];
      }
    }
  }

  ghost predicate AlwaysReady(pools: nat -> nat -> seq<B.Buffer>) { forall n :: S.AllReady(pools(n)) }

  lemma {:induction false} RunArrives(acts: seq<Action>, s: Text, pools: nat -> nat -> seq<B.Buffer>)
    requires Exec(acts).Some? && AlwaysReady(pools)
    ensures
      var arrived, sent := Arrived(acts, s, pools), Delivered(Exec(acts).value.tables, s);
      if S.AllWellFormed(sent) then arrived == sent else S.Diverges(arrived, sent)
  {
    hide Enabled, Apply, S.WellFormed, S.Diverges, S.AllWellFormed, S.AllReady, Delivered, Sent, Received, S.ProperName;
    if acts == [] {
      NothingYet(s);
    } else {
      var before, a := acts[..|acts| - 1], acts[|acts| - 1];
      var st := Exec(before).value;
      RunArrives(before, s, pools);
      DeliveredStep(st, a, s);
      ReceivedStep(st, a, s, pools(|before|));
      WellFormedSum(Delivered(st.tables, s), Sent(st, a, s));
      S.DivergesMore(Arrived(before, s, pools), Delivered(st.tables, s),
                     Received(st, a, s, pools(|before|)), Sent(st, a, s));
    }
  }

  lemma NothingYet(s: Text)
    ensures Delivered(INIT.tables, s) == [] && S.AllWellFormed([])
  {
  }

  /** Over every run: what arrived at s is what was written for s, exactly if all of it is well formed. */
  lemma DeliveriesArriveIff(acts: seq<Action>, st: State, s: Text, pools: nat -> nat -> seq<B.Buffer>)
    requires Exec(acts) == Some(st) && AlwaysReady(pools)
    ensures Arrived(acts, s, pools) == Delivered(st.tables, s) <==> S.AllWellFormed(Delivered(st.tables, s))
  {
    hide Exec, Arrived, Delivered, S.AllWellFormed, S.Diverges;
    RunArrives(acts, s, pools);
    if !S.AllWellFormed(Delivered(st.tables, s)) {
      S.DivergesDiffers(Arrived(acts, s, pools), Delivered(st.tables, s));
    }
  }

  /** Over every run: well-formed invocations submitted for s have arrived or are still queued, in order. */
  lemma SubmittedArrives(acts: seq<Action>, st: State, s: Text, pools: nat -> nat -> seq<B.Buffer>)
    requires Exec(acts) == Some(st) && AlwaysReady(pools) && S.AllWellFormed(Submitted(st.history, s))
    ensures Submitted(st.history, s) == Arrived(acts, s, pools) + Queued(st.tables, s)
  {
    hide Exec, Arrived, S.AllWellFormed, Submitted;
    Theorems.InvocationsConserved(acts, st, s);
    WellFormedSum(Delivered(st.tables, s), Queued(st.tables, s));
    DeliveriesArriveIff(acts, st, s, pools);
  }
}
