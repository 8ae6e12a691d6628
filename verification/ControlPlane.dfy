/** The control plane's Worker on the real tables and Redis.

    Every piece of a handler that other threads cannot split (one Redis call, one critical section of
    _sessions_mutex, one unlocked table access) is a method of its own, proved to carry out one action of
    Protocol.dfy. Others lets any threads take any pieces in any order, and the handlers run their pieces with
    Others between them, so whatever the interleaving the system is always where a run of the protocol is. */
module ControlPlane {
  import opened Bytes
  import opened SessionRecord
  import opened MemorySize
  import opened Tables
  import opened Resources
  import opened RedisStore
  import P = Protocol
  import S = InvocationStream
  import C = CommonMessages
  import M = MessagePairs
  import I = Invariant
  import Theorems
  import Outcomes
  import opened RuntimeSessions

  /** A request without a function name queues nothing. */
  function InvocationOf(name: Text, id: Text, payload: Text): (r: Option<Invocation>) {
    if name == [] then None else Some(Invocation(name, id, payload))
  }

  /** What a session looks like once it was added and its fields were set. */
  function Configured(before: SessionInfo, c: Config, swapIn: bool, inv: Option<Invocation>): (r: SessionInfo) {
    before.(maxFunctions := c.maxFunctions, memory := c.memory, swapIn := swapIn,
            queue := before.queue + OptionSeq(inv))
  }

  function SetProcess(t: Tables, p: Text, info: ProcessInfo): (t': Tables) { t.(processes := t.processes[p := info]) }

  function SetSession(t: Tables, s: Text, info: SessionInfo): (t': Tables) { t.(sessions := t.sessions[s := info]) }

  function Added(t: Tables, p: Text, s: Text): (t': Tables)
    requires p in t.processes
  {
    SetSession(SetProcess(t, p, t.processes[p].(sessions := t.processes[p].sessions + [s])), s,
               if s in t.sessions then t.sessions[s] else NEW_SESSION)
  }

  function Enrolled(t: Tables, p: Text, s: Text, c: Config, swapIn: bool, inv: Option<Invocation>): (t': Tables)
    requires p in t.processes
  {
    var t' := Added(t, p, s);
    SetSession(t', s, Configured(t'.sessions[s], c, swapIn, inv))
  }

  /** A request for s is written and s counts as allocated. */
  function Asked(t: Tables, p: Text, s: Text): (t': Tables)
    requires p in t.processes && s in t.sessions
  {
    var info := t.sessions[s];
    SetSession(SetProcess(t, p, Send(t.processes[p], Request(s, info.maxFunctions, info.memory))), s,
               info.(isAllocated := true))
  }

  lemma PlaceSteps(t: Tables, p: Text, s: Text, c: Config, swapIn: bool, inv: Option<Invocation>)
    requires p in t.processes
    ensures
      var added := Enrolled(t, p, s, c, swapIn, inv);
      && Place(t, p, s, c, swapIn, inv, false) == added
      && Place(t, p, s, c, swapIn, inv, true) == Asked(added, p, s)
  {
  }

  /** A request with a function name adds its invocation to the end of the session's queue, one without adds none. */
  lemma PlacedQueue(t: Tables, p: Text, s: Text, c: Config, swapIn: bool, name: Text, id: Text, payload: Text,
      existing: bool)
    requires p in t.processes
    ensures Outcomes.QueueOf(Place(t, p, s, c, swapIn, InvocationOf(name, id, payload), existing), s)
      == Outcomes.QueueOf(t, s) + (if name == [] then [] else [Invocation(name, id, payload)])
  {
  }

  class Worker {
    const redis: Redis
    const resources: Resources

    constructor (redis: Redis, resources: Resources)
      ensures this.redis == redis && this.resources == resources
    {
      this.redis, this.resources := redis, resources;
    }

    /** The session's fields and the queued invocation, for a session that was just added. */
    method Configure(s: Session, c: Config, swapIn: bool, name: Text, id: Text, payload: Text)
      modifies s
      ensures s.Info() == Configured(old(s.Info()), c, swapIn, InvocationOf(name, id, payload))
      ensures s.allocations == old(s.allocations) + (if name == [] then [] else [Invocation(name, id, payload)])
      ensures s.swapIn == swapIn && s.isAllocated == old(s.isAllocated) && s.written == old(s.written)
      ensures s.maxFunctions == c.maxFunctions && s.memorySize == c.memory
    {
      s.maxFunctions := c.maxFunctions;
      s.memorySize := c.memory;
      s.swapIn := swapIn;
      if name != [] {
        s.allocations := s.allocations + [Invocation(name, id, payload)];
      }
    }

    method Add(proc: Process, sessionId: Text) returns (session: Session)
      requires resources.Valid() && resources.Has(proc)
      modifies resources`sessions, proc`sessions
      ensures resources.Valid() && resources.processes == old(resources.processes) && resources.Has(proc)
      ensures resources.Grew()
      ensures resources.Owns(session) && session.sessionId == sessionId
      ensures old(session in resources.sessions.Values) || fresh(session)
      ensures old(proc.processId in resources.View().processes)
      ensures resources.View() == Added(old(resources.View()), proc.processId, sessionId)
    {
      resources.EntryOf(proc);
      resources.SessionEntry(sessionId);
      hide Resources.View;
      session := resources.AddSession(proc, sessionId);
      assert Ids(proc.sessions) == old(Ids(proc.sessions)) + [sessionId];
      resources.OneOfEach(proc, session);
    }

    /** Both branches of an allocation begin by adding the session to the process and setting its fields. */
    method Enroll(proc: Process, sessionId: Text, c: Config, swapIn: bool, name: Text, id: Text, payload: Text)
      returns (session: Session)
      requires resources.Valid() && resources.Has(proc)
      modifies resources`sessions, proc`sessions, resources.sessions.Values
      ensures resources.Valid() && resources.processes == old(resources.processes) && resources.Has(proc)
      ensures resources.Grew()
      ensures resources.Owns(session) && session.sessionId == sessionId
      ensures old(session in resources.sessions.Values) || fresh(session)
      ensures session.maxFunctions == c.maxFunctions && session.memorySize == c.memory
      ensures old(proc.processId in resources.View().processes)
      ensures resources.View()
        == Enrolled(old(resources.View()), proc.processId, sessionId, c, swapIn, InvocationOf(name, id, payload))
    {
      hide Resources.View, Ids, Configured, InvocationOf;
      session := Add(proc, sessionId);
      label L:
      resources.SessionEntry(sessionId);
      Configure(session, c, swapIn, name, id, payload);
      resources.OneSession@L(session);
    }

    /** The allocation request; nothing else in the tables changes. */
    method Ask(proc: Process, session: Session)
      requires resources.Valid() && resources.Has(proc)
      modifies proc`sent
      ensures resources.Valid()
      ensures old(proc.processId in resources.View().processes)
      ensures
        var t := old(resources.View());
        var r := Request(session.sessionId, session.maxFunctions, session.memorySize);
        resources.View() == SetProcess(t, proc.processId, Send(t.processes[proc.processId], r))
    {
      resources.EntryOf(proc);
      hide Resources.View, Ids;
      proc.Write(Request(session.sessionId, session.maxFunctions, session.memorySize));
      resources.OneProcess(proc);
    }

    method MarkAllocated(session: Session)
      requires resources.Valid() && resources.Owns(session)
      modifies session`isAllocated
      ensures resources.Valid()
      ensures old(session.sessionId in resources.View().sessions)
      ensures
        var t := old(resources.View());
        resources.View() == SetSession(t, session.sessionId, t.sessions[session.sessionId].(isAllocated := true))
    {
      resources.SessionEntry(session.sessionId);
      hide Resources.View, Ids;
      session.isAllocated := true;
      resources.OneSession(session);
    }

    method AskFor(proc: Process, session: Session)
      requires resources.Valid() && resources.Has(proc) && resources.Owns(session)
      modifies proc`sent, session`isAllocated
      ensures resources.Valid()
      ensures old(proc.processId in resources.View().processes && session.sessionId in resources.View().sessions)
      ensures resources.View() == Asked(old(resources.View()), proc.processId, session.sessionId)
    {
      resources.SessionEntry(session.sessionId);
      hide Resources.View;
      Ask(proc, session);
      MarkAllocated(session);
    }

    /** Allocation in an existing process. */
    method PlaceOnExisting(proc: Process, sessionId: Text, c: Config, swapIn: bool, name: Text, id: Text, payload: Text)
      requires resources.Valid() && resources.Has(proc)
      modifies resources`sessions, proc, resources.sessions.Values
      ensures resources.Valid() && resources.processes == old(resources.processes) && resources.Grew()
      ensures old(proc.processId in resources.View().processes)
      ensures resources.View()
        == Place(old(resources.View()), proc.processId, sessionId, c, swapIn, InvocationOf(name, id, payload), true)
    {
      hide Resources.View, Resources.Valid, Place, Configured, InvocationOf, Process.Info, Enrolled, Asked;
      resources.EntryOf(proc);
      PlaceSteps(resources.View(), proc.processId, sessionId, c, swapIn, InvocationOf(name, id, payload));
      var session := Enroll(proc, sessionId, c, swapIn, name, id, payload);
      AskFor(proc, session);
    }

    /** Allocation of a new process, once that is in the table: no request is written. */
    method PlaceOnNew(proc: Process, sessionId: Text, c: Config, swapIn: bool, name: Text, id: Text, payload: Text)
      requires resources.Valid() && resources.Has(proc)
      modifies resources`sessions, proc`sessions, resources.sessions.Values
      ensures resources.Valid() && resources.Grew()
      ensures old(proc.processId in resources.View().processes)
      ensures resources.View()
        == Place(old(resources.View()), proc.processId, sessionId, c, swapIn, InvocationOf(name, id, payload), false)
    {
      hide Resources.View, Resources.Valid, Place, Configured, InvocationOf, Process.Info, Enrolled, Asked;
      resources.EntryOf(proc);
      PlaceSteps(resources.View(), proc.processId, sessionId, c, swapIn, InvocationOf(name, id, payload));
      var session := Enroll(proc, sessionId, c, swapIn, name, id, payload);
    }

    method PlaceOn(proc: Process, existing: bool, sessionId: Text, c: Config, swapIn: bool,
                   name: Text, id: Text, payload: Text)
      requires resources.Valid() && resources.Has(proc)
      modifies resources`sessions, proc, resources.sessions.Values
      ensures resources.Valid() && resources.Grew()
      ensures old(proc.processId in resources.View().processes)
      ensures resources.View()
        == Place(old(resources.View()), proc.processId, sessionId, c, swapIn, InvocationOf(name, id, payload), existing)
      ensures Outcomes.QueueOf(resources.View(), sessionId)
        == Outcomes.QueueOf(old(resources.View()), sessionId)
           + (if name == [] then [] else [Invocation(name, id, payload)])
    {
      hide Resources.View, Resources.Valid, Place, InvocationOf, Outcomes.QueueOf;
      resources.EntryOf(proc);
      PlacedQueue(resources.View(), proc.processId, sessionId, c, swapIn, name, id, payload, existing);
      if existing {
        PlaceOnExisting(proc, sessionId, c, swapIn, name, id, payload);
      } else {
        PlaceOnNew(proc, sessionId, c, swapIn, name, id, payload);
      }
    }

    // ----- process_process

    method StoreConnection(proc: Process)
      requires resources.Valid() && resources.Has(proc)
      modifies proc`connected
      ensures resources.Valid()
      ensures old(proc.processId in resources.View().processes)
      ensures resources.View() == Attach(old(resources.View()), proc.processId)
    {
      resources.EntryOf(proc);
      hide Resources.View, Ids;
      proc.connected := true;
      resources.OneProcess(proc);
    }

    /** One turn of the loop over the process's sessions. */
    method RequestIfPending(proc: Process, session: Session)
      requires resources.Valid() && resources.Has(proc) && resources.Owns(session)
      modifies proc`sent, session`isAllocated
      ensures resources.Valid()
      ensures old(proc.processId in resources.View().processes)
      ensures resources.View() == RequestOne(old(resources.View()), proc.processId, session.sessionId)
    {
      resources.EntryOf(proc);
      resources.SessionEntry(session.sessionId);
      hide Resources.View, Resources.Valid;
      if !session.isAllocated {
        AskFor(proc, session);
      }
    }

    /** The loop that asks for every session of the process that was not asked for yet. */
    method RequestPending(proc: Process)
      requires resources.Valid() && resources.Has(proc)
      modifies proc`sent, resources.sessions.Values`isAllocated
      ensures resources.Valid()
      ensures old(proc.processId in resources.View().processes)
      ensures resources.View() == RequestAll(old(resources.View()), proc.processId, old(Ids(proc.sessions)))
    {
      resources.EntryOf(proc);
      hide Resources.View, RequestOne;
      ghost var ids := Ids(proc.sessions);
      assert ids == ids[0..];
      var k := 0;
      while k < |proc.sessions|
        invariant k <= |proc.sessions| && resources.Valid()
        invariant proc.processId in resources.View().processes
        invariant RequestAll(resources.View(), proc.processId, ids[k..])
          == RequestAll(old(resources.View()), proc.processId, ids)
      {
        assert resources.Owns(proc.sessions[k]);
        assert ids[k..][0] == proc.sessions[k].sessionId && ids[k..][1..] == ids[k + 1..];
        RequestIfPending(proc, proc.sessions[k]);
        k := k + 1;
      }
    }

    /** An id that is not in the table changes nothing. */
    method ProcessProcess(processId: Text) returns (known: bool)
      requires resources.Valid()
      modifies resources.processes.Values, resources.sessions.Values`isAllocated
      ensures resources.Valid() && (known <==> processId in old(resources.View().processes))
      ensures !known ==> resources.View() == old(resources.View())
      ensures known ==>
        var t := Attach(old(resources.View()), processId);
        resources.View() == RequestAll(t, processId, t.processes[processId].sessions)
    {
      var proc := resources.GetProcess(processId);
      if proc == null {
        return false;
      }
      resources.EntryOf(proc);
      hide Resources.View, Resources.Valid, RequestAll;
      StoreConnection(proc);
      RequestPending(proc);
      known := true;
    }

    // ----- process_session

    /** Every queued invocation leaves the queue at the front and is written to the new connection; one request
        object is filled again for each. */
    method SendQueued(session: Session) returns (stream: seq<byte>)
      modifies session`allocations, session`written
      ensures session.allocations == [] && session.written == old(session.written + session.allocations)
      ensures stream == S.SendAll(old(session.allocations))
    {
      hide M.Filled, C.FillFunctionRequest, S.SendFrom, S.SendAll, Wrap32;
      var req := new C.Request();
      ghost var before: seq<M.Header> := [];
      S.SendStart(session.allocations);
      if session.allocations == [] {
        req.FillFunction([], [], 0);
        return req.data[..];
      }
      stream := [];
      assert stream + S.SendFrom([], session.allocations) == S.SendFrom([], session.allocations);
      while session.allocations != []
        invariant req.data.Length == C.REQUEST_LENGTH && fresh(req.data) && req.data[..] == M.Filled(before)
        invariant session.written + session.allocations == old(session.written + session.allocations)
        invariant stream + S.SendFrom(before, session.allocations) == S.SendFrom([], old(session.allocations))
        decreases |session.allocations|
      {
        var item := session.allocations[0];
        S.MoreFilled(before, S.HeaderOf(item));
        S.SendStep(stream, before, session.allocations);
        req.FillFunction(item.name, item.id, Wrap32(|item.payload|));
        stream := stream + req.data[..] + item.payload;
        before := before + [S.HeaderOf(item)];
        session.written := session.written + [item];
        session.allocations := session.allocations[1..];
      }
      S.SendEnd(before);
    }

    /** `stream` is what the session's connection carries; a session that is not known gets nothing. */
    method ProcessSession(sessionId: Text) returns (known: bool, stream: seq<byte>)
      requires resources.Valid()
      modifies resources.sessions.Values
      ensures resources.Valid() && (known <==> sessionId in old(resources.View().sessions))
      ensures resources.View() == Drain(old(resources.View()), sessionId)
      ensures stream == if known then S.SendAll(old(resources.View()).sessions[sessionId].queue) else []
    {
      resources.SessionEntry(sessionId);
      var session := resources.GetSession(sessionId);
      if session == null {
        return false, [];
      }
      hide Resources.View, Ids, S.SendAll;
      stream := SendQueued(session);
      resources.OneSession(session);
      known := true;
    }

    // ----- the pieces of the handlers, against the protocol

    /** Redis and the tables are what the state of the protocol says. */
    ghost predicate Shows(st: P.State)
      reads redis, resources, resources.sessions.Values, resources.processes.Values
    {
      && resources.Valid()
      && st.names == redis.names && st.alive == redis.alive && st.swapped == redis.swapped
      && st.records == redis.records && st.tables == resources.View()
    }

    /** The system is where a run of the protocol is. */
    ghost predicate Consistent(t: Run)
      reads redis, resources, resources.sessions.Values, resources.processes.Values
    {
      Follows(t) && Shows(t.st)
    }

    /** process_allocation. */
    method ProcessAllocation(id: Text, t: Run) returns (t': Run)
      requires Consistent(t) && P.FreshUuid(t.st, id)
      modifies redis
      ensures Consistent(t') && Goes(t, P.AddGlobal(id), t')
    {
      hide Resources.Valid, Resources.View, P.Exec, P.FreshUuid;
      t' := Extend(t, P.AddGlobal(id));
      redis.SetProcess(id);
    }

    /** process_client, the lookup of the global process. */
    method FindGlobal(processId: Text, sessionId: Text, c: Config, name: Text, id: Text, payload: Text,
                      t: Run, me: Handler)
      returns (found: bool, t': Run)
      requires Consistent(t) && me.Client? && me.i !in t.st.clients && t.st.history.uuids !! me.ids
      ensures
        var inv := InvocationOf(name, id, payload);
        && Consistent(t') && Goes(t, P.Begin(me.i, processId, sessionId, c, inv), t')
        && At(t'.st, me, if !found then P.Replied(400)
                         else if sessionId == [] then P.Creating(processId, c, inv)
                         else P.Asked(processId, sessionId, inv))
      ensures (found <==> processId in t.st.names) && SameShown(t.st, t'.st)
    {
      hide Resources.Valid, Resources.View, P.Exec, InvocationOf;
      t' := Extend(t, P.Begin(me.i, processId, sessionId, c, InvocationOf(name, id, payload)));
      found := redis.HasProcess(processId);
    }

    method CheckAlive(processId: Text, sessionId: Text, t: Run, me: Handler, ghost inv: Option<Invocation>)
      returns (alive: bool, t': Run)
      requires Consistent(t) && me.Client? && At(t.st, me, P.Asked(processId, sessionId, inv))
      ensures Consistent(t') && Goes(t, P.CheckAlive(me.i), t')
      ensures At(t'.st, me, if alive then P.Replied(400) else P.NotAlive(processId, sessionId, inv))
      ensures (alive <==> redis.Member(SessionsAlive(processId), sessionId)) && t'.st.swapped == t.st.swapped
    {
      hide Resources.Valid, Resources.View, P.Exec;
      t' := Extend(t, P.CheckAlive(me.i));
      alive := redis.Member(SessionsAlive(processId), sessionId);
    }

    method ClaimSwapped(processId: Text, sessionId: Text, t: Run, me: Handler, ghost inv: Option<Invocation>)
      returns (won: bool, t': Run)
      requires Consistent(t) && me.Client? && At(t.st, me, P.NotAlive(processId, sessionId, inv))
      modifies redis
      ensures Consistent(t') && Goes(t, P.Claim(me.i), t')
      ensures At(t'.st, me, if won then P.Won(processId, sessionId, inv) else P.Replied(400))
      ensures won <==> (processId, sessionId) in t.st.swapped
    {
      hide Resources.Valid, Resources.View, P.Exec;
      t' := Extend(t, P.Claim(me.i));
      var count := redis.Srem(SessionsSwapped(processId), sessionId);
      won := count == 1;
    }

    /** The record of a claimed session; c is what the caller passed along. */
    method ReadConfig(processId: Text, sessionId: Text, c: Config, t: Run, me: Handler, ghost inv: Option<Invocation>)
      returns (config: Option<Config>, t': Run)
      requires Consistent(t) && me.Client? && At(t.st, me, P.Won(processId, sessionId, inv))
      ensures Consistent(t') && Goes(t, P.ReadRecord(me.i), t')
      ensures sessionId in t.st.history.created
      ensures
        var created := t.st.history.created[sessionId];
        config == Some(Config(created.maxFunctions, Outcomes.Opposite(created.memory)))
      ensures At(t'.st, me, P.Ready(P.Job(processId, sessionId, config.value, true, inv)))
      ensures t'.st.history == t.st.history
    {
      hide P.Exec, Resources.Valid, Resources.View, ParseRecord, P.Apply, P.Enabled, At;
      ReadEffect(t, me, processId, sessionId, inv, c);
      t' := Extend(t, P.ReadRecord(me.i));
      var value := redis.Get(sessionId);
      if value.None? {
        return None, t';
      }
      var read := ParseRecord(value.value, c);
      config := Some(read.(memory := Negate(read.memory)));
    }

    method CreateRecord(processId: Text, newSession: Text, c: Config, t: Run, me: Handler,
                        ghost inv: Option<Invocation>)
      returns (t': Run)
      requires Consistent(t) && me.Client? && At(t.st, me, P.Creating(processId, c, inv))
      requires P.FreshUuid(t.st, newSession)
      modifies redis
      ensures Consistent(t') && Goes(t, P.Create(me.i, newSession), t')
      ensures At(t'.st, Without(me, newSession), P.Ready(P.Job(processId, newSession, c, false, inv)))
    {
      hide Resources.Valid, Resources.View, P.Exec, PrintRecord, P.FreshUuid;
      t' := Extend(t, P.Create(me.i, newSession));
      redis.Set(newSession, PrintRecord(c));
    }

    /** get_free_process, which takes no lock. */
    method ReserveProcess(t: Run, me: Handler, ghost job: P.Job) returns (proc: Process?, t': Run)
      requires Consistent(t) && me.Client? && At(t.st, me, P.Ready(job))
      modifies resources.processes.Values`allocatedSessions
      ensures resources.processes == old(resources.processes) && resources.sessions == old(resources.sessions)
      ensures Consistent(t') && (proc != null ==> resources.Has(proc))
      ensures Goes(t, if proc != null then P.ReserveFree(me.i, proc.processId) else P.FindNoFree(me.i), t')
      ensures At(t'.st, me, if proc != null then P.Reserved(job, proc.processId, true) else P.NoFree(job))
    {
      hide Resources.Valid, Resources.View, P.Exec, HasRoom, Reserve;
      proc := resources.GetFreeProcess();
      t' := Extend(t, if proc != null then P.ReserveFree(me.i, proc.processId) else P.FindNoFree(me.i));
    }

    /** add_process: other threads see the process before its session is added. */
    method AddNew(newProcess: Text, global: Text, t: Run, me: Handler, ghost job: P.Job)
      returns (proc: Process, t': Run)
      requires Consistent(t) && me.Client? && At(t.st, me, P.NoFree(job)) && job.global == global
      requires P.FreshUuid(t.st, newProcess)
      modifies resources`processes
      ensures resources.Has(proc) && proc.processId == newProcess && resources.Grew()
      ensures Consistent(t') && Goes(t, P.AddProcess(me.i, newProcess), t')
      ensures At(t'.st, Without(me, newProcess), P.Reserved(job, newProcess, false))
    {
      Unlisted(t, newProcess);
      hide P.Exec, P.FreshUuid, Resources.View, Resources.Valid;
      t' := Extend(t, P.AddProcess(me.i, newProcess));
      proc := AddEmpty(newProcess, global);
    }

    method AddEmpty(id: Text, global: Text) returns (proc: Process)
      requires resources.Valid() && id !in resources.View().processes
      modifies resources`processes
      ensures resources.Valid() && resources.Has(proc) && proc.processId == id && resources.Grew()
      ensures resources.sessions == old(resources.sessions)
      ensures resources.View() == SetProcess(old(resources.View()), id, NewProcess(global))
    {
      assert id !in resources.processes;
      proc := new Process(id, global, MAX_SESSIONS_PER_PROCESS, 1);
      hide Process.Info;
      resources.AddProcess(proc);
    }

    /** The critical section that puts the session on the process. */
    method PlaceSession(proc: Process, existing: bool, sessionId: Text, c: Config, swapIn: bool,
                        name: Text, id: Text, payload: Text, t: Run, me: Handler, ghost job: P.Job)
      returns (t': Run)
      requires Consistent(t) && resources.Has(proc) && me.Client?
      requires At(t.st, me, P.Reserved(job, proc.processId, existing))
      requires job == P.Job(job.global, sessionId, c, swapIn, InvocationOf(name, id, payload))
      modifies resources`sessions, proc, resources.sessions.Values
      ensures resources.Grew()
      ensures Consistent(t') && Goes(t, P.PlaceSession(me.i), t')
      ensures At(t'.st, me, P.Placed(job.global, sessionId))
      ensures Outcomes.QueueOf(resources.View(), sessionId)
        == Outcomes.QueueOf(old(resources.View()), sessionId)
           + (if name == [] then [] else [Invocation(name, id, payload)])
    {
      hide Resources.Valid, Resources.View, Follows, Place, InvocationOf, P.Enabled, P.Apply, At, Goes,
        Outcomes.QueueOf;
      PlaceEffect(t, me, job, proc.processId, existing);
      t' := Extend(t, P.PlaceSession(me.i));
      PlaceOn(proc, existing, sessionId, c, swapIn, name, id, payload);
    }

    method MarkAlive(processId: Text, sessionId: Text, t: Run, me: Handler) returns (t': Run)
      requires Consistent(t) && me.Client? && At(t.st, me, P.Placed(processId, sessionId))
      modifies redis
      ensures Consistent(t') && Goes(t, P.MarkAlive(me.i), t')
      ensures At(t'.st, me, P.Replied(200)) && redis.Member(SessionsAlive(processId), sessionId)
    {
      hide Resources.Valid, Resources.View, P.Exec;
      t' := Extend(t, P.MarkAlive(me.i));
      redis.Sadd(SessionsAlive(processId), sessionId);
    }

    /** handle_session_closure, the critical section. */
    method RemoveFromList(proc: Process, sessionId: Text, t: Run, j: nat) returns (t': Run)
      requires Consistent(t) && resources.Has(proc) && CloserAt(t.st, j, P.Received(proc.processId, sessionId))
      modifies proc`sessions, proc`allocatedSessions
      ensures Consistent(t') && Goes(t, P.RemoveSession(j), t')
      ensures CloserAt(t'.st, j, P.Removed(proc.processId, sessionId))
    {
      resources.EntryOf(proc);
      hide Resources.Valid, Resources.View, P.Exec, Remove;
      t' := Extend(t, P.RemoveSession(j));
      resources.RemoveSession(proc, sessionId);
    }

    method UnmarkAlive(proc: Process, sessionId: Text, t: Run, j: nat) returns (t': Run)
      requires Consistent(t) && CloserAt(t.st, j, P.Removed(proc.processId, sessionId))
      modifies redis
      ensures Consistent(t') && Goes(t, P.Unmark(j), t')
      ensures CloserAt(t'.st, j, P.Unmarked(proc.processId, sessionId))
    {
      hide Resources.Valid, Resources.View, P.Exec;
      t' := Extend(t, P.Unmark(j));
      var count := redis.Srem(SessionsAlive(proc.processId), sessionId);
    }

    method ParkSession(proc: Process, sessionId: Text, t: Run, j: nat) returns (t': Run)
      requires Consistent(t) && resources.Has(proc) && CloserAt(t.st, j, P.Unmarked(proc.processId, sessionId))
      modifies redis
      ensures Consistent(t') && Goes(t, P.Park(j), t')
      ensures CloserAt(t'.st, j, P.Parked(proc.processId, sessionId))
    {
      resources.EntryOf(proc);
      hide Resources.Valid, Resources.View, P.Exec;
      t' := Extend(t, P.Park(j));
      redis.Sadd(SessionsSwapped(proc.globalProcessId), sessionId);
    }

    method EraseFromAlive(proc: Process, sessionId: Text, t: Run, j: nat) returns (t': Run)
      requires Consistent(t) && resources.Has(proc) && CloserAt(t.st, j, P.Parked(proc.processId, sessionId))
      modifies redis
      ensures Consistent(t') && Goes(t, P.EraseAlive(j), t')
      ensures CloserAt(t'.st, j, P.Finished)
    {
      resources.EntryOf(proc);
      hide Resources.Valid, Resources.View, P.Exec;
      t' := Extend(t, P.EraseAlive(j));
      var count := redis.Srem(SessionsAlive(proc.globalProcessId), sessionId);
    }

    /** process_process, before the lock. */
    method AttachProcess(proc: Process, t: Run) returns (t': Run)
      requires Consistent(t) && resources.Has(proc) && P.CanAttach(t.st, proc.processId)
      modifies proc`connected
      ensures Consistent(t') && Goes(t, P.AttachProcess(proc.processId), t')
    {
      hide Resources.Valid, Resources.View, P.Exec, Attach;
      t' := Extend(t, P.AttachProcess(proc.processId));
      StoreConnection(proc);
    }

    /** process_process, its critical section. */
    method IdentifyProcess(proc: Process, t: Run) returns (t': Run)
      requires Consistent(t) && resources.Has(proc) && P.CanIdentify(t.st, proc.processId)
      modifies proc`sent, resources.sessions.Values`isAllocated
      ensures Consistent(t') && Goes(t, P.Identify(proc.processId), t')
    {
      resources.EntryOf(proc);
      hide Resources.Valid, Resources.View, P.Exec, RequestAll;
      t' := Extend(t, P.Identify(proc.processId));
      RequestPending(proc);
    }

    /** process_session. */
    method DrainSession(sessionId: Text, t: Run) returns (stream: seq<byte>, t': Run)
      requires Consistent(t)
      modifies resources.sessions.Values
      ensures sessionId in t.st.tables.sessions ==> stream == S.SendAll(t.st.tables.sessions[sessionId].queue)
      ensures Consistent(t') && Goes(t, P.DrainSession(sessionId), t')
    {
      hide Resources.Valid, Resources.View, P.Exec, Drain;
      t' := Extend(t, P.DrainSession(sessionId));
      var known;
      known, stream := ProcessSession(sessionId);
    }

    // ----- any threads, in any order

    /** The next piece of client handler i, when it is a Redis call. */
    method ClientRedis(t: Run, i: nat, id: Text) returns (t': Run, ghost a: P.Action)
      requires Consistent(t) && ClientCan(t.st, i, id) && CallsRedis(t.st.clients[i])
      modifies redis
      ensures Consistent(t') && Goes(t, a, t') && ByClient(a, i, id)
    {
      var me := Client(i, {});
      hide Consistent, Goes, P.FreshUuid;
      match t.st.clients[i] {
        case Creating(g, c, inv) =>
          a := P.Create(i, id);
          t' := CreateRecord(g, id, c, t, me, inv);
        case Asked(g, s, inv) =>
          a := P.CheckAlive(i);
          var alive;
          alive, t' := CheckAlive(g, s, t, me, inv);
        case NotAlive(g, s, inv) =>
          a := P.Claim(i);
          var won;
          won, t' := ClaimSwapped(g, s, t, me, inv);
        case Won(g, s, inv) =>
          a := P.ReadRecord(i);
          var config;
          config, t' := ReadConfig(g, s, Config(0, 0), t, me, inv);
        case Placed(g, s) =>
          a := P.MarkAlive(i);
          t' := MarkAlive(g, s, t, me);
      }
    }

    /** The next piece of client handler i, when it looks for a process. The tables choose the branch. */
    method ClientSearches(t: Run, i: nat, id: Text) returns (t': Run, ghost a: P.Action)
      requires Consistent(t) && ClientCan(t.st, i, id) && Searches(t.st.clients[i])
      modifies resources`processes, resources.processes.Values`allocatedSessions
      ensures resources.Grew()
      ensures Consistent(t') && Goes(t, a, t') && ByClient(a, i, id)
    {
      var me := Client(i, {});
      hide Consistent, Goes, P.FreshUuid;
      match t.st.clients[i] {
        case Ready(job) =>
          var proc;
          proc, t' := ReserveProcess(t, me, job);
          a := if proc != null then P.ReserveFree(i, proc.processId) else P.FindNoFree(i);
        case NoFree(job) =>
          a := P.AddProcess(i, id);
          var proc;
          proc, t' := AddNew(id, job.global, t, me, job);
      }
    }

    /** The next piece of client handler i, when it has a process. */
    method ClientPlaces(t: Run, i: nat) returns (t': Run)
      requires Consistent(t) && i in t.st.clients && t.st.clients[i].Reserved? && Named(t.st.clients[i].job.inv)
      modifies resources`sessions, resources.processes.Values, resources.sessions.Values
      ensures resources.Grew()
      ensures Consistent(t') && Goes(t, P.PlaceSession(i), t')
    {
      Reserves(t, i);
      var job := t.st.clients[i].job;
      InvocationParts(job.inv);
      resources.Entry(t.st.clients[i].process);
      hide Consistent, Goes, Resources.Valid, Resources.View, InvocationOf;
      t' := PlaceSession(resources.processes[t.st.clients[i].process], t.st.clients[i].existing, job.session,
                         job.config, job.swapIn, NameOf(job.inv), IdOf(job.inv), PayloadOf(job.inv), t,
                         Client(i, {}), job);
    }

    /** The next piece of closure handler j. */
    method CloserTurn(t: Run, j: nat) returns (t': Run, ghost a: P.Action)
      requires Consistent(t) && CloserCan(t.st, j)
      modifies redis, resources.processes.Values
      ensures Consistent(t') && Goes(t, a, t') && ByCloser(a, j)
    {
      CloserProcess(t, j);
      resources.Entry(t.st.closers[j].process);
      var proc := resources.processes[t.st.closers[j].process];
      hide Consistent, Goes, Resources.Valid, Resources.View;
      match t.st.closers[j] {
        case Received(_, s) =>
          a := P.RemoveSession(j);
          t' := RemoveFromList(proc, s, t, j);
        case Removed(_, s) =>
          a := P.Unmark(j);
          t' := UnmarkAlive(proc, s, t, j);
        case Unmarked(_, s) =>
          a := P.Park(j);
          t' := ParkSession(proc, s, t, j);
        case Parked(_, s) =>
          a := P.EraseAlive(j);
          t' := EraseFromAlive(proc, s, t, j);
      }
    }

    /** The next piece of a handler that puts a session on a process. */
    method ClientTurn(t: Run, i: nat, id: Text) returns (t': Run, ghost a: P.Action)
      requires Consistent(t) && ClientCan(t.st, i, id)
      modifies redis, resources, resources.processes.Values, resources.sessions.Values
      ensures resources.Grew()
      ensures Consistent(t') && Goes(t, a, t') && ByClient(a, i, id)
    {
      hide Consistent, Goes, P.FreshUuid;
      if CallsRedis(t.st.clients[i]) {
        t', a := ClientRedis(t, i, id);
      } else if Searches(t.st.clients[i]) {
        t', a := ClientSearches(t, i, id);
      } else {
        a := P.PlaceSession(i);
        t' := ClientPlaces(t, i);
      }
    }

    /** A process or a session identifies itself. */
    method IdentificationTurn(t: Run, turn: Turn) returns (t': Run, ghost a: P.Action)
      requires Consistent(t) && Possible(t.st, turn)
      requires turn.ProcessConnects? || turn.ProcessIsAsked? || turn.SessionConnects?
      modifies resources.processes.Values, resources.sessions.Values
      ensures Consistent(t') && Goes(t, a, t') && Takes(turn, a)
    {
      if !turn.SessionConnects? {
        resources.Entry(turn.p);
      }
      hide Consistent, Goes, Resources.Valid, Resources.View;
      match turn {
        case ProcessConnects(p) =>
          a := P.AttachProcess(p);
          t' := AttachProcess(resources.processes[p], t);
        case ProcessIsAsked(p) =>
          a := P.Identify(p);
          t' := IdentifyProcess(resources.processes[p], t);
        case SessionConnects(s) =>
          a := P.DrainSession(s);
          var stream;
          stream, t' := DrainSession(s, t);
      }
    }

    /** One piece, by whoever takes it. */
    method Perform(t: Run, turn: Turn) returns (t': Run, ghost a: P.Action)
      requires Consistent(t) && Possible(t.st, turn)
      modifies redis, resources, resources.processes.Values, resources.sessions.Values
      ensures resources.Grew()
      ensures Consistent(t') && Goes(t, a, t') && Takes(turn, a)
    {
      hide Resources.Valid, Resources.View, P.Exec, P.FreshUuid;
      match turn {
        case NewGlobal(g) =>
          a := P.AddGlobal(g);
          t' := ProcessAllocation(g, t);
        case Arrives(i, g, s, c, name, id, payload) =>
          a := P.Begin(i, g, s, c, InvocationOf(name, id, payload));
          var found;
          found, t' := FindGlobal(g, s, c, name, id, payload, t, Client(i, {}));
        case OfClient(i, id) =>
          t', a := ClientTurn(t, i, id);
        case OfCloser(j) =>
          t', a := CloserTurn(t, j);
        case Elsewhere(b) =>
          a := b;
          OutsideOnly(t.st, b);
          t' := Extend(t, b);
        case _ =>
          t', a := IdentificationTurn(t, turn);
      }
    }

    /** Other threads take any pieces, in any order; turns that cannot be taken are passed over. */
    method Others(t: Run, turns: seq<Turn>, me: Handler) returns (t': Run)
      requires Consistent(t)
      modifies redis, resources, resources.processes.Values, resources.sessions.Values
      ensures Consistent(t') && t.acts <= t'.acts && Spares(me, t.st, t'.st)
      ensures resources.Grew()
      ensures turns == [] ==> t' == t
    {
      t' := t;
      hide Consistent, Possible, Goes, Owns, Spares, Takes;
      SparesNothing(me, t.st);
      for k := 0 to |turns|
        invariant Consistent(t') && t.acts <= t'.acts && Spares(me, t.st, t'.st)
        invariant resources.Grew()
        invariant k == 0 ==> t' == t
      {
        if Possible(t'.st, turns[k]) && !Owns(me, turns[k]) {
          ghost var before := t';
          ghost var a;
          t', a := Perform(t', turns[k]);
          Spared(me, turns[k], a, t, before, t');
        }
      }
    }

    // ----- the handlers as a whole; others(k) is what other threads do in the k-th gap

    /** process_client for a session that the caller names: it is not alive, the claim wins, the record is there. */
    method Restore(processId: Text, sessionId: Text, c: Config, others: nat -> seq<Turn>, t: Run, me: Handler,
                   ghost inv: Option<Invocation>)
      returns (code: int, config: Config, t': Run)
      requires Consistent(t) && me.Client? && At(t.st, me, P.Asked(processId, sessionId, inv))
      modifies redis, resources, resources.processes.Values, resources.sessions.Values
      ensures Consistent(t') && t.acts <= t'.acts && resources.Grew()
      ensures code == 200 || code == 400
      ensures At(t'.st, me, if code == 200 then P.Ready(P.Job(processId, sessionId, config, true, inv))
                            else P.Replied(code))
      ensures code == 200 ==>
        && sessionId in t'.st.history.created
        && var created := t'.st.history.created[sessionId];
           config == Config(created.maxFunctions, Outcomes.Opposite(created.memory))
      ensures Quiet(others) ==> (code == 200 <==> old(Parked(processId, sessionId)))
    {
      hide Consistent, At, P.Apply, P.Enabled;
      SeesRedis(t, processId, sessionId);
      config := c;
      var alive, won;
      alive, t' := CheckAlive(processId, sessionId, t, me, inv);
      if alive {
        return 400, config, t';
      }
      t' := OthersAt(t', others(1), me, P.NotAlive(processId, sessionId, inv));
      won, t' := ClaimSwapped(processId, sessionId, t', me, inv);
      if !won {
        return 400, config, t';
      }
      t' := OthersAt(t', others(2), me, P.Won(processId, sessionId, inv));
      var read;
      read, t' := ReadConfig(processId, sessionId, c, t', me, inv);
      if read.None? {
        return 400, config, t';
      }
      return 200, read.value, t';
    }

    /** Swapped out under g and not alive there. */
    predicate Parked(g: Text, s: Text)
      reads redis
    {
      redis.Member(SessionsSwapped(g), s) && !redis.Member(SessionsAlive(g), s)
    }

    lemma SeesRedis(t: Run, g: Text, s: Text)
      requires Consistent(t)
      ensures redis.Member(SessionsAlive(g), s) <==> (g, s) in t.st.alive
      ensures redis.Member(SessionsSwapped(g), s) <==> (g, s) in t.st.swapped
      ensures redis.HasProcess(g) <==> g in t.st.names
    {
      hide Resources.Valid, Resources.View, P.Exec;
    }

    /** Other threads' turns, as a client handler at c sees them. */
    method OthersAt(t: Run, turns: seq<Turn>, me: Handler, ghost c: P.Client) returns (t': Run)
      requires Consistent(t) && me.Client? && At(t.st, me, c)
      modifies redis, resources, resources.processes.Values, resources.sessions.Values
      ensures Consistent(t') && t.acts <= t'.acts && At(t'.st, me, c) && resources.Grew()
      ensures turns == [] ==> t' == t
    {
      hide Consistent;
      t' := Others(t, turns, me);
    }

    /** The first part of process_client: its checks, and the claim or the creation of a session. */
    method Resolve(processId: Text, sessionId: Text, c: Config, newSession: Text, others: nat -> seq<Turn>,
                   t: Run, me: Handler, ghost inv: Option<Invocation>)
      returns (code: int, session: Text, config: Config, swapIn: bool, t': Run)
      requires Consistent(t) && me.Client? && IsUuid(newSession) && newSession in me.ids
      requires At(t.st, me,
                  if sessionId == [] then P.Creating(processId, c, inv) else P.Asked(processId, sessionId, inv))
      modifies redis, resources, resources.processes.Values, resources.sessions.Values
      ensures Consistent(t') && t.acts <= t'.acts && resources.Grew()
      ensures code == 200 || code == 400
      ensures At(t'.st, Without(me, newSession),
                 if code == 200 then P.Ready(P.Job(processId, session, config, swapIn, inv)) else P.Replied(code))
      ensures session == if sessionId == [] then newSession else sessionId
      ensures Quiet(others) ==> (code == 200 <==> sessionId == [] || old(Parked(processId, sessionId)))
    {
      hide Consistent, At, P.Apply, P.Enabled, P.FreshUuid, IsUuid;
      session, config, swapIn := if sessionId == [] then newSession else sessionId, c, sessionId != [];
      if sessionId != [] {
        code, config, t' := Restore(processId, sessionId, c, others, t, me, inv);
        IsAt(t'.st, me, if code == 200 then P.Ready(P.Job(processId, session, config, swapIn, inv))
                        else P.Replied(code), newSession);
      } else {
        code := 200;
        Draws(t.st, me, P.Creating(processId, c, inv), newSession);
        t' := CreateRecord(processId, newSession, c, t, me, inv);
      }
    }

    /** A session goes to the process that was found or made for it. */
    method UseProcess(proc: Process, existing: bool, sessionId: Text, c: Config, swapIn: bool,
                      name: Text, id: Text, payload: Text,
                      turns: seq<Turn>, t: Run, me: Handler, ghost job: P.Job)
      returns (t': Run)
      requires Consistent(t) && resources.Has(proc) && me.Client?
      requires At(t.st, me, P.Reserved(job, proc.processId, existing))
      requires job == P.Job(job.global, sessionId, c, swapIn, InvocationOf(name, id, payload))
      modifies redis, resources, resources.processes.Values, resources.sessions.Values
      ensures Consistent(t') && t.acts <= t'.acts && resources.Grew()
      ensures At(t'.st, me, P.Placed(job.global, sessionId))
    {
      hide Consistent, At, P.Apply, P.Enabled, InvocationOf, Resources.View, Resources.Valid, Outcomes.QueueOf;
      t' := OthersAt(t, turns, me, P.Reserved(job, proc.processId, existing));
      t' := PlaceSession(proc, existing, sessionId, c, swapIn, name, id, payload, t', me, job);
    }

    /** Allocation of a new process. */
    method StartProcess(newProcess: Text, processId: Text, sessionId: Text, c: Config, swapIn: bool,
                        name: Text, id: Text, payload: Text,
                        others: nat -> seq<Turn>, t: Run, me: Handler, ghost job: P.Job)
      returns (t': Run)
      requires Consistent(t) && me.Client? && IsUuid(newProcess) && newProcess in me.ids
      requires At(t.st, me, P.NoFree(job))
      requires job == P.Job(processId, sessionId, c, swapIn, InvocationOf(name, id, payload))
      modifies redis, resources, resources.processes.Values, resources.sessions.Values
      ensures Consistent(t') && t.acts <= t'.acts && resources.Grew()
      ensures At(t'.st, Without(me, newProcess), P.Placed(processId, sessionId))
    {
      hide Consistent, At, P.Apply, P.Enabled, InvocationOf, P.FreshUuid, IsUuid,
        Resources.View, Resources.Valid;
      t' := OthersAt(t, others(4), me, P.NoFree(job));
      var proc;
      Draws(t'.st, me, P.NoFree(job), newProcess);
      proc, t' := AddNew(newProcess, processId, t', me, job);
      t' := UseProcess(proc, false, sessionId, c, swapIn, name, id, payload, others(5), t', Without(me, newProcess),
                       job);
    }

    /** The second part of process_client: a process with room, or a new one. */
    method FindPlace(processId: Text, sessionId: Text, c: Config, swapIn: bool, name: Text, id: Text, payload: Text,
                     newProcess: Text, others: nat -> seq<Turn>, t: Run, me: Handler)
      returns (t': Run)
      requires Consistent(t) && me.Client? && IsUuid(newProcess) && newProcess in me.ids
      requires At(t.st, me, P.Ready(P.Job(processId, sessionId, c, swapIn, InvocationOf(name, id, payload))))
      modifies redis, resources, resources.processes.Values, resources.sessions.Values
      ensures Consistent(t') && t.acts <= t'.acts && resources.Grew()
      ensures At(t'.st, Without(me, newProcess), P.Placed(processId, sessionId))
    {
      hide Consistent, At, P.Apply, P.Enabled, InvocationOf;
      ghost var job := P.Job(processId, sessionId, c, swapIn, InvocationOf(name, id, payload));
      var proc;
      proc, t' := ReserveProcess(t, me, job);
      if proc != null {
        t' := UseProcess(proc, true, sessionId, c, swapIn, name, id, payload, others(4), t', me, job);
        IsAt(t'.st, me, P.Placed(processId, sessionId), newProcess);
      } else {
        t' := StartProcess(newProcess, processId, sessionId, c, swapIn, name, id, payload, others, t', me, job);
      }
    }

    /** process_client from the first Redis call to the reply. */
    method ProcessClient(processId: Text, sessionId: Text, name: Text, id: Text, c: Config, payload: Text,
                         newSession: Text, newProcess: Text, others: nat -> seq<Turn>, t: Run, i: nat)
      returns (code: int, reply: Text, t': Run)
      requires Consistent(t) && i !in t.st.clients
      requires P.FreshUuid(t.st, newSession) && P.FreshUuid(t.st, newProcess) && newSession != newProcess
      modifies redis, resources, resources.processes.Values, resources.sessions.Values
      ensures Consistent(t') && t.acts <= t'.acts
      ensures code == 200 || code == 400
      ensures i in t'.st.clients && t'.st.clients[i] == P.Replied(code)
      ensures code == 200 ==> redis.Member(SessionsAlive(processId), reply)
      ensures code == 200 ==> reply == if sessionId == [] then newSession else sessionId
      ensures Quiet(others) ==>
        (code == 200 <==> old(redis.HasProcess(processId)) && (sessionId == [] || old(Parked(processId, sessionId))))
    {
      var me := Client(i, {newSession, newProcess});
      var found, config, swapIn;
      ghost var inv := InvocationOf(name, id, payload);
      hide Consistent, At, P.Apply, P.Enabled, InvocationOf;
      SeesRedis(t, processId, sessionId);
      found, t' := FindGlobal(processId, sessionId, c, name, id, payload, t, me);
      if !found {
        IsAt(t'.st, me, P.Replied(400), []);
        return 400, [], t';
      }
      t' := OthersAt(t', others(0), me,
        if sessionId == [] then P.Creating(processId, c, inv) else P.Asked(processId, sessionId, inv));
      SeesRedis(t', processId, sessionId);
      code, reply, config, swapIn, t' := Resolve(processId, sessionId, c, newSession, others, t', me, inv);
      me := Without(me, newSession);
      if code == 200 {
        t' := Settle(processId, reply, config, swapIn, name, id, payload, newProcess, others, t', me);
      } else {
        IsAt(t'.st, me, P.Replied(code), []);
      }
    }

    /** What follows once the session is known: a place for it, and the ALIVE set. */
    method Settle(processId: Text, sessionId: Text, c: Config, swapIn: bool, name: Text, id: Text, payload: Text,
                  newProcess: Text, others: nat -> seq<Turn>, t: Run, me: Handler)
      returns (t': Run)
      requires Consistent(t) && me.Client? && IsUuid(newProcess) && newProcess in me.ids
      requires At(t.st, me, P.Ready(P.Job(processId, sessionId, c, swapIn, InvocationOf(name, id, payload))))
      modifies redis, resources, resources.processes.Values, resources.sessions.Values
      ensures Consistent(t') && t.acts <= t'.acts
      ensures me.i in t'.st.clients && t'.st.clients[me.i] == P.Replied(200)
      ensures redis.Member(SessionsAlive(processId), sessionId)
    {
      hide Consistent, At, P.Apply, P.Enabled, InvocationOf;
      t' := OthersAt(t, others(3), me,
        P.Ready(P.Job(processId, sessionId, c, swapIn, InvocationOf(name, id, payload))));
      t' := FindPlace(processId, sessionId, c, swapIn, name, id, payload, newProcess, others, t', me);
      var rest := Without(me, newProcess);
      t' := OthersAt(t', others(6), rest, P.Placed(processId, sessionId));
      t' := MarkAlive(processId, sessionId, t', rest);
      IsAt(t'.st, rest, P.Replied(200), []);
    }

    /** Other threads' turns, as a closure handler at c sees them. */
    method OthersBeside(t: Run, turns: seq<Turn>, j: nat, ghost c: P.Closer) returns (t': Run)
      requires Consistent(t) && CloserAt(t.st, j, c)
      modifies redis, resources, resources.processes.Values, resources.sessions.Values
      ensures Consistent(t') && t.acts <= t'.acts && CloserAt(t'.st, j, c) && resources.Grew()
    {
      hide Consistent;
      t' := Others(t, turns, Closer(j));
    }

    /** handle_session_closure, once handle_message has read a closure. */
    method HandleSessionClosure(proc: Process, sessionId: Text, others: nat -> seq<Turn>, t: Run, j: nat)
      returns (t': Run)
      requires Consistent(t) && resources.Has(proc) && CloserAt(t.st, j, P.Received(proc.processId, sessionId))
      modifies redis, resources, resources.processes.Values, resources.sessions.Values
      ensures Consistent(t') && t.acts <= t'.acts
      ensures CloserAt(t'.st, j, P.Finished)
    {
      hide Consistent, CloserAt, P.Apply, P.Enabled;
      var p := proc.processId;
      t' := RemoveFromList(proc, sessionId, t, j);
      t' := OthersBeside(t', others(0), j, P.Removed(p, sessionId));
      t' := UnmarkAlive(proc, sessionId, t', j);
      t' := OthersBeside(t', others(1), j, P.Unmarked(p, sessionId));
      t' := ParkSession(proc, sessionId, t', j);
      t' := OthersBeside(t', others(2), j, P.Parked(p, sessionId));
      t' := EraseFromAlive(proc, sessionId, t', j);
    }
  }

  /** The control plane from an empty start, with any turns of any threads. */
  method Serve(turns: seq<Turn>) returns (worker: Worker, t: Run)
    ensures fresh(worker.redis) && fresh(worker.resources) && worker.Consistent(t)
  {
    var redis := new Redis();
    var resources := new Resources();
    worker := new Worker(redis, resources);
    t := Run([], P.INIT);
    t := worker.Others(t, turns, NoHandler);
  }

  // ----- runs

  /** The actions so far, and the state they lead to. */
  datatype Run = Run(acts: seq<P.Action>, st: P.State)

  ghost predicate Follows(t: Run) { P.Exec(t.acts) == Some(t.st) }

  /** The run goes on by one action. */
  ghost predicate Goes(t: Run, a: P.Action, t': Run) {
    P.Enabled(t.st, a) && t' == Run(t.acts + [a], P.Apply(t.st, a))
  }

  function Extend(t: Run, a: P.Action): (t': Run)
    requires Follows(t) && P.Enabled(t.st, a)
    ensures Follows(t') && Goes(t, a, t')
  {
    assert (t.acts + [a])[..|t.acts + [a]| - 1] == t.acts;
    Run(t.acts + [a], P.Apply(t.st, a))
  }

  /** Who takes the next piece, and what the network and the id generator give it. */
  datatype Turn =
    | NewGlobal(g: Text)
    | Arrives(i: nat, g: Text, s: Text, c: Config, name: Text, id: Text, payload: Text)
    | OfClient(i: nat, id: Text)
    | ProcessConnects(p: Text)
    | ProcessIsAsked(p: Text)
    | SessionConnects(s: Text)
    | OfCloser(j: nat)
    | Elsewhere(a: P.Action)

  predicate Possible(st: P.State, turn: Turn) {
    match turn
    case NewGlobal(g) => P.FreshUuid(st, g)
    case Arrives(i, _, _, _, _, _, _) => i !in st.clients
    case OfClient(i, id) => ClientCan(st, i, id)
    case ProcessConnects(p) => P.CanAttach(st, p)
    case ProcessIsAsked(p) => P.CanIdentify(st, p)
    case SessionConnects(_) => true
    case OfCloser(j) => CloserCan(st, j)
    case Elsewhere(a) => Outside(a) && P.Enabled(st, a)
  }

  /** Handler i is not done; the id it may draw is fresh, the invocation it may queue has a name. */
  predicate ClientCan(st: P.State, i: nat, id: Text) {
    && i in st.clients && !st.clients[i].Replied?
    && (st.clients[i].Creating? || st.clients[i].NoFree? ==> P.FreshUuid(st, id))
    && (st.clients[i].Reserved? ==> Named(st.clients[i].job.inv))
  }

  predicate CloserCan(st: P.State, j: nat) { j in st.closers && !st.closers[j].Finished? }

  predicate Searches(c: P.Client) { c.Ready? || c.NoFree? }

  predicate CallsRedis(c: P.Client) { !Searches(c) && !c.Reserved? && !c.Replied? }

  predicate Named(inv: Option<Invocation>) { inv.Some? ==> inv.value.name != [] }

  function NameOf(inv: Option<Invocation>): (name: Text) { if inv.Some? then inv.value.name else [] }

  function IdOf(inv: Option<Invocation>): (id: Text) { if inv.Some? then inv.value.id else [] }

  function PayloadOf(inv: Option<Invocation>): (payload: Text) { if inv.Some? then inv.value.payload else [] }

  lemma InvocationParts(inv: Option<Invocation>)
    ensures Named(inv) <==> InvocationOf(NameOf(inv), IdOf(inv), PayloadOf(inv)) == inv
  {
  }

  /** Actions outside the control plane's handlers: the channels and the runtime processes. */
  predicate Outside(a: P.Action) {
    a.Take? || a.Announce? || a.AllocateSession? || a.Reply? || a.DeleteSession? || a.ReportClosure?
  }

  /** The actions of client handler i; id is a UUID that it may draw. */
  predicate ByClient(a: P.Action, i: nat, id: Text) {
    match a
    case Create(k, s) => k == i && s == id
    case AddProcess(k, p) => k == i && p == id
    case ReserveFree(k, _) => k == i
    case CheckAlive(k) => k == i
    case Claim(k) => k == i
    case ReadRecord(k) => k == i
    case FindNoFree(k) => k == i
    case PlaceSession(k) => k == i
    case MarkAlive(k) => k == i
    case _ => false
  }

  predicate ByCloser(a: P.Action, j: nat) {
    a == P.RemoveSession(j) || a == P.Unmark(j) || a == P.Park(j) || a == P.EraseAlive(j)
  }

  /** The actions that a turn may turn out to be. */
  predicate Takes(turn: Turn, a: P.Action) {
    match turn
    case NewGlobal(g) => a == P.AddGlobal(g)
    case Arrives(i, g, s, c, name, id, payload) => a == P.Begin(i, g, s, c, InvocationOf(name, id, payload))
    case OfClient(i, id) => ByClient(a, i, id)
    case ProcessConnects(p) => a == P.AttachProcess(p)
    case ProcessIsAsked(p) => a == P.Identify(p)
    case SessionConnects(s) => a == P.DrainSession(s)
    case OfCloser(j) => ByCloser(a, j)
    case Elsewhere(b) => a == b && Outside(a)
  }

  function Drawn(turn: Turn): (ids: set<Text>) {
    match turn
    case NewGlobal(g) => {g}
    case OfClient(_, id) => {id}
    case _ => {}
  }

  /** No other thread does anything in any gap. */
  ghost predicate Quiet(others: nat -> seq<Turn>) { forall k :: others(k) == [] }

  // ----- what one turn leaves alone

  /** A handler, with the ids that it will draw. */
  datatype Handler = NoHandler | Client(i: nat, ids: set<Text>) | Closer(j: nat)

  function Without(me: Handler, id: Text): (rest: Handler)
    requires me.Client?
  {
    Client(me.i, me.ids - {id})
  }

  /** Client handler `me` is at c, and the ids that it will draw are fresh. */
  ghost predicate At(st: P.State, me: Handler, c: P.Client)
    requires me.Client?
  {
    me.i in st.clients && st.clients[me.i] == c && st.history.uuids !! me.ids
  }

  ghost predicate CloserAt(st: P.State, j: nat, c: P.Closer) { j in st.closers && st.closers[j] == c }

  predicate IsUuid(id: Text) { |id| == 16 && NulFree(id) }

  /** Turns that are not another thread's. */
  predicate Owns(me: Handler, turn: Turn) {
    match me
    case Client(i, ids) => (turn.OfClient? && turn.i == i) || Drawn(turn) * ids != {}
    case Closer(j) => turn == OfCloser(j)
    case NoHandler => false
  }

  /** Where the handler is when it goes on: other threads left it alone. */
  ghost predicate Spares(me: Handler, st: P.State, st': P.State) {
    match me
    case Client(i, ids) =>
      && (i in st.clients ==> i in st'.clients && st'.clients[i] == st.clients[i])
      && (st.history.uuids !! ids ==> st'.history.uuids !! ids)
    case Closer(j) => j in st.closers ==> j in st'.closers && st'.closers[j] == st.closers[j]
    case NoHandler => true
  }

  lemma SparesNothing(me: Handler, st: P.State)
    ensures Spares(me, st, st)
  {
  }

  lemma Spared(me: Handler, turn: Turn, a: P.Action, t: Run, t1: Run, t2: Run)
    requires Spares(me, t.st, t1.st) && t.acts <= t1.acts && Goes(t1, a, t2) && Takes(turn, a) && !Owns(me, turn)
    ensures Spares(me, t.st, t2.st) && t.acts <= t2.acts
  {
    TurnAlone(t1.st, a, turn);
    hide P.Enabled, P.Apply, Takes;
    SparedStill(me, turn, t.st, t1.st, t2.st);
  }

  lemma SparedStill(me: Handler, turn: Turn, st: P.State, st1: P.State, st2: P.State)
    requires Spares(me, st, st1) && Leaves(turn, st1, st2) && !Owns(me, turn)
    ensures Spares(me, st, st2)
  {
  }

  /** Handlers whose turn it is not stay where they are, and no id but the turn's own is used up. */
  ghost predicate Leaves(turn: Turn, st: P.State, st': P.State) {
    && (forall i :: i in st.clients && !(turn.OfClient? && turn.i == i) ==>
          i in st'.clients && st'.clients[i] == st.clients[i])
    && (forall j :: j in st.closers && !(turn.OfCloser? && turn.j == j) ==>
          j in st'.closers && st'.closers[j] == st.closers[j])
    && st'.history.uuids <= st.history.uuids + Drawn(turn)
  }

  lemma TurnAlone(st: P.State, a: P.Action, turn: Turn)
    requires P.Enabled(st, a) && Takes(turn, a)
    ensures Leaves(turn, st, P.Apply(st, a))
  {
    hide P.FreshUuid, Attach, RequestAll, Drain, InvocationOf;
    match turn {
      case NewGlobal(_) =>
      case Arrives(_, _, _, _, _, _, _) =>
      case OfClient(i, id) => ClientAlone(st, a, i, id);
      case ProcessConnects(_) =>
      case ProcessIsAsked(_) =>
      case SessionConnects(_) =>
      case OfCloser(j) => CloserAlone(st, a, j);
      case Elsewhere(_) => OutsideAlone(st, a);
    }
  }

  lemma ClientAlone(st: P.State, a: P.Action, i: nat, id: Text)
    requires P.Enabled(st, a) && ByClient(a, i, id)
    ensures Leaves(OfClient(i, id), st, P.Apply(st, a))
  {
    ClientOnly(st, a, i, id);
    hide P.Enabled, P.Apply, ByClient;
  }

  lemma ClientOnly(st: P.State, a: P.Action, i: nat, id: Text)
    requires P.Enabled(st, a) && ByClient(a, i, id)
    ensures
      var st' := P.Apply(st, a);
      i in st'.clients && st'.clients == st.clients[i := st'.clients[i]] && st'.closers == st.closers
      && st'.history.uuids <= st.history.uuids + {id}
  {
    hide P.FreshUuid, Place, Reserve, PrintRecord, ParseRecord, P.Drops, P.Submitted, HasRoom, NewProcess;
    match a {
      case Create(_, _) =>
      case CheckAlive(_) =>
      case Claim(_) =>
      case ReadRecord(_) =>
      case ReserveFree(_, _) =>
      case FindNoFree(_) =>
      case AddProcess(_, _) =>
      case PlaceSession(_) =>
      case MarkAlive(_) =>
      case _ =>
    }
  }

  lemma CloserAlone(st: P.State, a: P.Action, j: nat)
    requires P.Enabled(st, a) && ByCloser(a, j)
    ensures Leaves(OfCloser(j), st, P.Apply(st, a))
  {
    CloserOnly(st, a, j);
    hide P.Enabled, P.Apply, ByCloser;
  }

  lemma CloserOnly(st: P.State, a: P.Action, j: nat)
    requires P.Enabled(st, a) && ByCloser(a, j)
    ensures
      var st' := P.Apply(st, a);
      j in st'.closers && st'.closers == st.closers[j := st'.closers[j]] && st'.clients == st.clients
      && st'.history.uuids == st.history.uuids
  {
  }

  lemma OutsideAlone(st: P.State, a: P.Action)
    requires P.Enabled(st, a) && Outside(a)
    ensures Leaves(Elsewhere(a), st, P.Apply(st, a))
  {
    OutsideOnly(st, a);
    hide P.Enabled, P.Apply;
  }

  lemma OutsideOnly(st: P.State, a: P.Action)
    requires P.Enabled(st, a) && Outside(a)
    ensures
      var st' := P.Apply(st, a);
      && st'.clients == st.clients && st'.history == st.history && SameShown(st, st')
      && (forall j :: j in st.closers ==> j in st'.closers && st'.closers[j] == st.closers[j])
  {
    match a {
      case Take(_, _) =>
      case Announce(_) =>
      case Reply(_) =>
      case ReportClosure(_, _) =>
      case _ => ForkOnly(st, a);
    }
  }

  lemma ForkOnly(st: P.State, a: P.Action)
    requires P.Enabled(st, a) && (a.AllocateSession? || a.DeleteSession?)
    ensures
      var st' := P.Apply(st, a);
      st'.clients == st.clients && st'.history == st.history && SameShown(st, st') && st'.closers == st.closers
  {
    hide P.FreshUuid, FindPid, Allocate;
  }

  /** What Redis and the tables show. */
  ghost predicate SameShown(st: P.State, st': P.State) {
    && st'.names == st.names && st'.alive == st.alive && st'.swapped == st.swapped && st'.records == st.records
    && st'.tables == st.tables
  }

  // ----- what every run keeps

  lemma ReadEffect(t: Run, me: Handler, g: Text, s: Text, inv: Option<Invocation>, c: Config)
    requires Follows(t) && me.Client? && At(t.st, me, P.Won(g, s, inv))
    ensures P.Enabled(t.st, P.ReadRecord(me.i)) && s in t.st.records && s in t.st.history.created
    ensures
      var st' := P.Apply(t.st, P.ReadRecord(me.i));
      var read := ParseRecord(t.st.records[s], c);
      && SameShown(t.st, st') && st'.history == t.st.history
      && At(st', me, P.Ready(P.Job(g, s, read.(memory := Negate(read.memory)), true, inv)))
      && Negate(read.memory) == Outcomes.Opposite(t.st.history.created[s].memory)
      && read.maxFunctions == t.st.history.created[s].maxFunctions
  {
    hide P.Exec, ParseRecord;
    TargetsIgnored(t.acts, t.st, me.i, c);
    Theorems.ConfigurationSurvives(t.acts, t.st, me.i);
    Outcomes.NegateIs(t.st.history.created[s].memory);
  }

  /** The ids that a handler will draw are fresh when it draws them. */
  lemma Draws(st: P.State, me: Handler, c: P.Client, id: Text)
    requires me.Client? && At(st, me, c) && id in me.ids && IsUuid(id)
    ensures P.FreshUuid(st, id)
  {
  }

  lemma IsAt(st: P.State, me: Handler, c: P.Client, id: Text)
    requires me.Client? && At(st, me, c)
    ensures me.i in st.clients && st.clients[me.i] == c && At(st, Without(me, id), c)
  {
  }

  /** A placement, as Redis, the tables and its handler see it. */
  lemma PlaceEffect(t: Run, me: Handler, job: P.Job, p: Text, existing: bool)
    requires Follows(t) && me.Client? && At(t.st, me, P.Reserved(job, p, existing))
    ensures P.Enabled(t.st, P.PlaceSession(me.i)) && p in t.st.tables.processes
    ensures
      var st' := P.Apply(t.st, P.PlaceSession(me.i));
      && SameShown(t.st.(tables := Place(t.st.tables, p, job.session, job.config, job.swapIn, job.inv, existing)), st')
      && At(st', me, P.Placed(job.global, job.session))
  {
    hide Follows, Place, P.Drops, P.Submitted;
    Reserves(t, me.i);
  }

  lemma Unlisted(t: Run, id: Text)
    requires Follows(t) && P.FreshUuid(t.st, id)
    ensures id !in t.st.tables.processes
  {
    hide P.Exec;
    Outcomes.Linked(t.acts, t.st);
  }

  lemma Reserves(t: Run, i: nat)
    requires Follows(t) && i in t.st.clients && t.st.clients[i].Reserved?
    ensures P.CanPlace(t.st, i)
  {
    hide P.Exec;
    Outcomes.Linked(t.acts, t.st);
  }

  lemma CloserProcess(t: Run, j: nat)
    requires Follows(t) && CloserCan(t.st, j)
    ensures t.st.closers[j].process in t.st.tables.processes
  {
    hide P.Exec;
    Outcomes.Linked(t.acts, t.st);
  }

  /** Whatever a caller passes along with a session id, the record of a claimed session overwrites it. */
  lemma TargetsIgnored(run: seq<P.Action>, st: P.State, i: nat, c: Config)
    requires P.Exec(run) == Some(st) && P.CanReadRecord(st, i)
    ensures
      var s := st.clients[i].session;
      s in st.records && ParseRecord(st.records[s], c) == ParseRecord(st.records[s], Config(0, 0))
  {
    hide P.Exec, ParseRecord, PrintRecord, P.DoReadRecord;
    Theorems.ConfigurationSurvives(run, st, i);
    Recorded(run, st);
    RecordRoundTrip(st.history.created[st.clients[i].session], c);
    RecordRoundTrip(st.history.created[st.clients[i].session], Config(0, 0));
  }

  lemma Recorded(run: seq<P.Action>, st: P.State)
    requires P.Exec(run) == Some(st)
    ensures forall s :: s in st.history.created ==>
      s in st.records && st.records[s] == PrintRecord(st.history.created[s])
  {
    hide P.Exec, PrintRecord, I.Inv;
    var loc := Theorems.Consistent(run, st);
  }

}
