/** The session list of a runtime process (runtime/lib/process.cpp) as values. */
module RuntimeSessions {
  import opened Bytes
  import opened MemorySize
  import opened Tables

  const SUCCESS: int16 := 0
  const NO_MORE_CAPACITY: int16 := 1
  const SESSION_CONFLICT: int16 := 2
  const UNKNOWN_FAILURE: int16 := 3

  /** One entry: `bytes` is the size of its shared memory (-1 without one), `pid` its child (-1 without one). */
  datatype Fork = Fork(session: Text, maxFunctions: int32, memory: int32, bytes: int32, pid: int32)

  /** What the operating system does to SessionFork::fork: no shared memory; a failing vfork, which the
      code does not tell from a success; or a child with its pid. */
  datatype Outcome = NoMemory | NoChild | Child(pid: int32)

  predicate Hosts(forks: seq<Fork>, s: Text) { exists k :: 0 <= k < |forks| && forks[k].session == s }

  function Forked(r: Request, o: Outcome): (result: Fork) {
    Fork(r.session, r.maxFunctions, r.memory,
         if o.NoMemory? then -1 else SegmentBytes(r.memory),
         if o.Child? then o.pid else -1)
  }

  /** An int16 cast to size_t. */
  function AsSize(n: int16): (size: nat)
    ensures size == n || (n < 0 && size > 0x7FFF_FFFF_FFFF_FFFF)
  {
    if n < 0 then n + 0x1_0000_0000_0000_0000 else n
  }

  /** allocate_session: the list afterwards and the status sent back. */
  function Allocate(forks: seq<Fork>, maxSessions: int16, r: Request, o: Outcome): (result: (seq<Fork>, int16)) {
    if |forks| >= AsSize(maxSessions) then (forks, NO_MORE_CAPACITY)
    else if Hosts(forks, r.session) then (forks, SESSION_CONFLICT)
    else (forks + [Forked(r, o)], if o.NoMemory? then UNKNOWN_FAILURE else SUCCESS)
  }

  /** The first entry with this pid, as session_deleted looks it up. */
  function FindPid(forks: seq<Fork>, pid: int32): (k: nat)
    ensures k <= |forks|
    ensures forall i :: 0 <= i < k ==> forks[i].pid != pid
    ensures k < |forks| ==> forks[k].pid == pid
  {
    if forks == [] || forks[0].pid == pid then 0 else 1 + FindPid(forks[1..], pid)
  }

  /** What session_deleted reports: the swapped size, or 0 when swapping is off. */
  function Closing(f: Fork, swapping: bool): (r: Closure) {
    Closure(f.session, if swapping then f.bytes else 0)
  }

  datatype Closure = Closure(session: Text, bytes: int32)
}
