/** The control plane's tables as values, and what each critical section does to them.
    ControlPlane.dfy proves the pointer-based classes against these functions;
    Protocol.dfy runs the whole system on them. */
module Tables {
  import opened Bytes
  import opened SessionRecord

  datatype Invocation = Invocation(name: Text, id: Text, payload: Text)

  /** A session allocation request: what a runtime process reads from its connection. */
  datatype Request = Request(session: Text, maxFunctions: int32, memory: int32)

  /** A Session object; `delivered` is everything written to the session's own connections. */
  datatype SessionInfo = SessionInfo(
    maxFunctions: int32, memory: int32, swapIn: bool, isAllocated: bool,
    queue: seq<Invocation>, delivered: seq<Invocation>)

  /** A Process object; `sent` is everything written to the process's connection. */
  datatype ProcessInfo = ProcessInfo(
    globalId: Text, allocatedSessions: int, maxSessions: int, connected: bool,
    sent: seq<Request>, sessions: seq<Text>)

  datatype Tables = Tables(processes: map<Text, ProcessInfo>, sessions: map<Text, SessionInfo>)

  const MAX_SESSIONS_PER_PROCESS: int16 := 4

  const NEW_SESSION := SessionInfo(0, 0, false, false, [], [])

  function NewProcess(globalId: Text): (r: ProcessInfo) {
    ProcessInfo(globalId, 1, MAX_SESSIONS_PER_PROCESS, false, [], [])
  }

  function OptionSeq<T>(o: Option<T>): (r: seq<T>) { if o.Some? then [o.value] else [] }

  predicate HasRoom(p: ProcessInfo) { p.allocatedSessions < p.maxSessions }

  /** get_free_process, once it has chosen p. */
  function Reserve(t: Tables, p: Text): (t': Tables)
    requires p in t.processes
  {
    t.(processes := t.processes[p := t.processes[p].(allocatedSessions := t.processes[p].allocatedSessions + 1)])
  }

  /** A write reaches the peer only when the connection is there. */
  function Send(p: ProcessInfo, r: Request): (result: ProcessInfo) {
    if p.connected then p.(sent := p.sent + [r]) else p
  }

  /** The critical section that puts a session on a process: add_session, the session's fields, the
      queued invocation and, on a process that existed before, the allocation request. */
  function Place(t: Tables, p: Text, s: Text, c: Config, swapIn: bool, inv: Option<Invocation>,
      existing: bool): (t': Tables)
    requires p in t.processes
  {
    var before := if s in t.sessions then t.sessions[s] else NEW_SESSION;
    var info := before.(maxFunctions := c.maxFunctions, memory := c.memory, swapIn := swapIn,
                        isAllocated := existing || before.isAllocated, queue := before.queue + OptionSeq(inv));
    var listed := t.processes[p].(sessions := t.processes[p].sessions + [s]);
    var proc := if existing then Send(listed, Request(s, c.maxFunctions, c.memory)) else listed;
    Tables(t.processes[p := proc], t.sessions[s := info])
  }

  function IndexOf(list: seq<Text>, s: Text): (k: nat)
    ensures k <= |list|
    ensures s !in list[..k]
    ensures k < |list| ==> list[k] == s
  {
    if list == [] || list[0] == s then 0 else 1 + IndexOf(list[1..], s)
  }

  function RemoveAt<T>(list: seq<T>, k: nat): (r: seq<T>)
    requires k < |list|
  {
    list[..k] + list[k + 1..]
  }

  /** remove_session: the Session object itself stays in the table. */
  function Remove(t: Tables, p: Text, s: Text): (t': Tables)
    requires p in t.processes
  {
    var proc := t.processes[p];
    var k := IndexOf(proc.sessions, s);
    if k == |proc.sessions| then t
    else t.(processes := t.processes[p := proc.(allocatedSessions := proc.allocatedSessions - 1,
                                                sessions := RemoveAt(proc.sessions, k))])
  }

  lemma RemoveKeeps(t: Tables, p: Text, s: Text)
    requires p in t.processes
    ensures p in Remove(t, p, s).processes && Remove(t, p, s).processes[p].globalId == t.processes[p].globalId
  {
  }

  /** Identification of a process: one turn of the loop over its sessions, then the loop. */
  function RequestOne(t: Tables, p: Text, s: Text): (t': Tables)
    requires p in t.processes
  {
    if s in t.sessions && !t.sessions[s].isAllocated then
      var info := t.sessions[s];
      Tables(t.processes[p := Send(t.processes[p], Request(s, info.maxFunctions, info.memory))],
             t.sessions[s := info.(isAllocated := true)])
    else t
  }

  function RequestAll(t: Tables, p: Text, list: seq<Text>): (t': Tables)
    requires p in t.processes
    ensures p in t'.processes
    decreases |list|
  {
    if list == [] then t else RequestAll(RequestOne(t, p, list[0]), p, list[1..])
  }

  function Attach(t: Tables, p: Text): (t': Tables)
    requires p in t.processes
  {
    t.(processes := t.processes[p := t.processes[p].(connected := true)])
  }

  /** A session identified itself: all queued invocations go out, oldest first. */
  function Drain(t: Tables, s: Text): (t': Tables) {
    if s in t.sessions then
      var info := t.sessions[s];
      t.(sessions := t.sessions[s := info.(queue := [], delivered := info.delivered + info.queue)])
    else t
  }
}
