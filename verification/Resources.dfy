/** The control plane's Resources as the source keeps them: two hash maps of objects, where a process
    holds pointers into the session table. Every method is proved against the table functions. */
module Resources {
  import opened Bytes
  import opened SessionRecord
  import opened Tables

  class Session {
    const sessionId: Text
    var maxFunctions: int32
    var memorySize: int32
    var swapIn: bool
    var isAllocated: bool
    var allocations: seq<Invocation>  // the deque
    var written: seq<Invocation>      // what its connections carried so far

    constructor (id: Text)
      ensures sessionId == id && Info() == NEW_SESSION
    {
      sessionId := id;
      maxFunctions, memorySize, swapIn, isAllocated := 0, 0, false, false;
      allocations, written := [], [];
    }

    function Info(): (r: SessionInfo)
      reads this
    {
      SessionInfo(maxFunctions, memorySize, swapIn, isAllocated, allocations, written)
    }
  }

  function Ids(list: seq<Session>): (ids: seq<Text>)
    ensures |ids| == |list|
    ensures forall k :: 0 <= k < |list| ==> ids[k] == list[k].sessionId
  {
    seq(|list|, k requires 0 <= k < |list| => list[k].sessionId)
  }

  class Process {
    const processId: Text
    const globalProcessId: Text
    const maxSessions: int
    var allocatedSessions: int        // an int16 that Theorems.CapacityAccounting keeps within 0 to 4
    var connected: bool
    var sent: seq<Request>            // what its connection carried so far
    var sessions: seq<Session>

    constructor (id: Text, global: Text, max: int, taken: int)
      ensures processId == id && sessions == []
      ensures Info() == ProcessInfo(global, taken, max, false, [], [])
    {
      processId, globalProcessId, maxSessions, allocatedSessions := id, global, max, taken;
      connected, sent, sessions := false, [], [];
    }

    function Info(): (r: ProcessInfo)
      reads this
    {
      ProcessInfo(globalProcessId, allocatedSessions, maxSessions, connected, sent, Ids(sessions))
    }

    /** One session less: the counter goes down and the pointer leaves the vector. */
    method Erase(k: nat)
      requires k < |sessions|
      modifies this`sessions, this`allocatedSessions
      ensures sessions == RemoveAt(old(sessions), k)
      ensures Info() == old(Info()).(allocatedSessions := old(allocatedSessions) - 1,
                                     sessions := RemoveAt(old(Ids(sessions)), k))
    {
      ghost var ids := Ids(sessions);
      allocatedSessions := allocatedSessions - 1;
      sessions := sessions[..k] + sessions[k + 1..];
      assert Ids(sessions) == RemoveAt(ids, k);
    }

    /** connection.write: nothing arrives anywhere while there is no connection. */
    method Write(r: Request)
      modifies this`sent
      ensures Info() == Send(old(Info()), r)
    {
      if connected {
        sent := sent + [r];
      }
    }
  }

  class Resources {
    var sessions: map<Text, Session>
    var processes: map<Text, Process>

    /** Keys match the objects, and every pointer a process holds is the table's own entry. */
    ghost predicate Valid()
      reads this, processes.Values
    {
      && (forall s :: s in sessions ==> sessions[s].sessionId == s)
      && (forall p :: p in processes ==> processes[p].processId == p)
      && (forall p, k :: p in processes && 0 <= k < |processes[p].sessions| ==> Owns(processes[p].sessions[k]))
    }

    ghost predicate Owns(s: Session)
      reads this
    {
      s.sessionId in sessions && sessions[s.sessionId] == s
    }

    ghost predicate Has(p: Process)
      reads this
    {
      p.processId in processes && processes[p.processId] == p
    }

    ghost function View(): (t': Tables)
      reads this, sessions.Values, processes.Values
    {
      Tables(map p | p in processes :: processes[p].Info(), map s | s in sessions :: sessions[s].Info())
    }

    /** Processes stay in the table, and objects that were not in the tables before are new. */
    twostate predicate Grew()
      reads this
    {
      && (forall p :: p in old(processes) ==> p in processes && processes[p] == old(processes)[p])
      && (forall o :: o in processes.Values ==> o in old(processes).Values || fresh(o))
      && (forall o :: o in sessions.Values ==> o in old(sessions).Values || fresh(o))
    }

    /** A change of one process shows as a change of one entry. */
    twostate lemma OneProcess(pr: Process)
      requires old(Valid()) && old(Has(pr)) && sessions == old(sessions) && processes == old(processes)
      requires forall q :: q in processes && q != pr.processId ==> processes[q].Info() == old(processes[q].Info())
      requires forall s :: s in sessions ==> sessions[s].Info() == old(sessions[s].Info())
      ensures View() == old(View()).(processes := old(View()).processes[pr.processId := pr.Info()])
    {
      hide Process.Info, Session.Info, Ids;
      assert View().sessions == old(View()).sessions;
    }

    /** And a change of one session likewise. */
    twostate lemma OneSession(s: Session)
      requires old(Valid()) && old(Owns(s)) && sessions == old(sessions) && processes == old(processes)
      requires forall x :: x in sessions && x != s.sessionId ==> sessions[x].Info() == old(sessions[x].Info())
      requires forall q :: q in processes ==> processes[q].Info() == old(processes[q].Info())
      ensures View() == old(View()).(sessions := old(View()).sessions[s.sessionId := s.Info()])
    {
      hide Process.Info, Session.Info, Ids;
      assert View().processes == old(View()).processes;
    }

    /** A process and a session, which may be new, change together. */
    twostate lemma OneOfEach(pr: Process, new s: Session)
      requires old(Valid()) && old(Has(pr)) && sessions == old(sessions)[s.sessionId := s]
        && processes == old(processes)
      requires forall q :: q in processes && q != pr.processId ==> processes[q].Info() == old(processes[q].Info())
      requires forall x :: x in old(sessions) && x != s.sessionId ==> sessions[x].Info() == old(sessions[x].Info())
      ensures View() == Tables(old(View()).processes[pr.processId := pr.Info()],
                               old(View()).sessions[s.sessionId := s.Info()])
    {
      hide Process.Info, Session.Info, Ids;
      assert View().processes == old(View()).processes[pr.processId := pr.Info()];
      assert View().sessions == old(View()).sessions[s.sessionId := s.Info()];
    }

    constructor ()
      ensures Valid() && View() == Tables(map[], map[]) && sessions == map[] && processes == map[]
    {
      sessions, processes := map[], map[];
    }

    method AddProcess(p: Process)
      requires Valid() && p.sessions == []
      modifies this`processes
      ensures Valid() && Has(p) && processes == old(processes)[p.processId := p] && sessions == old(sessions)
      ensures View() == old(View()).(processes := old(View()).processes[p.processId := p.Info()])
    {
      processes := processes[p.processId := p];
    }

    method GetProcess(id: Text) returns (p: Process?)
      requires Valid()
      ensures p == null <==> id !in processes
      ensures p != null ==> Has(p) && p.processId == id
    {
      p := if id in processes then processes[id] else null;
    }

    method GetSession(id: Text) returns (s: Session?)
      requires Valid()
      ensures s == null <==> id !in sessions
      ensures s != null ==> Owns(s) && s.sessionId == id
    {
      s := if id in sessions then sessions[id] else null;
    }

    method Occupy(p: Process)
      requires Valid() && Has(p)
      modifies p`allocatedSessions
      ensures Valid() && sessions == old(sessions) && processes == old(processes)
      ensures View() == Reserve(old(View()), p.processId)
      ensures p.allocatedSessions == old(p.allocatedSessions) + 1
    {
      EntryOf(p);
      hide View;
      p.allocatedSessions := p.allocatedSessions + 1;
      OneProcess(p);
    }

    /** The first process with room, in the order in which the map happens to be walked. */
    method GetFreeProcess() returns (p: Process?)
      requires Valid()
      modifies processes.Values`allocatedSessions
      ensures Valid() && sessions == old(sessions) && processes == old(processes)
      ensures p == null ==> View() == old(View())
      ensures p == null ==> forall q :: q in processes ==> processes[q].allocatedSessions >= processes[q].maxSessions
      ensures p == null ==> forall q :: q in View().processes ==> !HasRoom(View().processes[q])
      ensures p != null ==> Has(p) && old(p.processId in View().processes)
                            && old(p.allocatedSessions) < p.maxSessions
                            && p.allocatedSessions == old(p.allocatedSessions) + 1
                            && HasRoom(old(View()).processes[p.processId])
                            && View() == Reserve(old(View()), p.processId)
    {
      var todo := processes.Keys;
      while todo != {}
        invariant todo <= processes.Keys
        invariant forall q :: q in processes && q !in todo ==>
          !(processes[q].allocatedSessions < processes[q].maxSessions)
        decreases |todo|
      {
        var q :| q in todo;
        var candidate := processes[q];
        if candidate.allocatedSessions < candidate.maxSessions {
          Occupy(candidate);
          return candidate;
        }
        todo := todo - {q};
      }
      p := null;
    }

    /** emplace keeps an object that is there; its pointer is appended either way. */
    method AddSession(pr: Process, id: Text) returns (s: Session)
      requires Valid() && Has(pr)
      modifies this`sessions, pr`sessions
      ensures Valid() && Has(pr) && Owns(s) && s.sessionId == id && processes == old(processes)
      ensures sessions == old(sessions)[id := s] && (id in old(sessions) ==> s == old(sessions)[id])
      ensures id !in old(sessions) ==> fresh(s) && s.Info() == NEW_SESSION
      ensures pr.sessions == old(pr.sessions) + [s]
    {
      if id !in sessions {
        var created := new Session(id);
        sessions := sessions[id := created];
      }
      s := sessions[id];
      pr.sessions := pr.sessions + [s];
    }

    method RemoveSession(pr: Process, id: Text)
      requires Valid() && Has(pr)
      modifies pr`sessions, pr`allocatedSessions
      ensures Valid() && Has(pr) && sessions == old(sessions) && processes == old(processes)
      ensures View() == Remove(old(View()), pr.processId, id)
    {
      var k := 0;
      while k < |pr.sessions| && pr.sessions[k].sessionId != id
        invariant k <= |pr.sessions|
        invariant forall i :: 0 <= i < k ==> pr.sessions[i].sessionId != id
      {
        k := k + 1;
      }
      FirstIndex(Ids(pr.sessions), id, k);
      EntryOf(pr);
      hide IndexOf, View;
      if k < |pr.sessions| {
        EraseFrom(pr, k);
      }
    }

    method EraseFrom(pr: Process, k: nat)
      requires Valid() && Has(pr) && k < |pr.sessions|
      modifies pr`sessions, pr`allocatedSessions
      ensures Valid() && sessions == old(sessions) && processes == old(processes)
      ensures View() == old(View()).(processes := old(View()).processes[pr.processId :=
        old(pr.Info()).(allocatedSessions := old(pr.Info()).allocatedSessions - 1,
                        sessions := RemoveAt(old(pr.Info()).sessions, k))])
    {
      hide View, Ids;
      pr.Erase(k);
      OneProcess(pr);
    }

    lemma EntryOf(pr: Process)
      requires Has(pr)
      ensures pr.processId in View().processes && View().processes[pr.processId] == pr.Info()
    {
    }

    lemma Entry(p: Text)
      requires Valid() && p in View().processes
      ensures p in processes && Has(processes[p]) && processes[p].processId == p
    {
    }

    lemma SessionEntry(id: Text)
      ensures id in View().sessions <==> id in sessions
      ensures id in sessions ==> View().sessions[id] == sessions[id].Info()
    {
    }
  }

  lemma {:induction false} FirstIndex(list: seq<Text>, id: Text, k: nat)
    requires k <= |list| && (forall i :: 0 <= i < k ==> list[i] != id) && (k < |list| ==> list[k] == id)
    ensures IndexOf(list, id) == k
  {
    if k > 0 {
      FirstIndex(list[1..], id, k - 1);
    }
  }
}
