# PraaS: a Dafny model of sessions, messages and local memory

PraaS keeps user *sessions* on worker processes. The control plane places a session on a process, the process
forks a child for it, and when the child ends the session's memory is swapped out, the session is parked in Redis,
and a later request swaps it back in, possibly on another process. Functions are invoked on sessions over framed
byte streams, and a local memory server lets sessions share objects. This project models that behaviour and proves
what holds over all runs of it.

Run `dafny verify dfyconfig.toml`.

## How the project is organised

**The session protocol.** `Tables` has the control plane's tables as values and one function for each critical section
of `_sessions_mutex`; `RuntimeSessions` has the session list of a runtime process likewise. `Protocol` puts them
together into a transition system: any number of client and closure handlers at once, the Redis sets and records, the
tables, message channels both ways and any number of runtime processes. One action is one Redis call, one critical
section, one unlocked table access, or one message. A run is a list of actions, and the theorems quantify over all
lists. `Invariant` states the joint invariant (every session ever created has one location, and each part of the system
may mention it only as its location allows); `Moves`, `StepPlaces`, `Identification`, `StepFlags`, `StepValues` and
`Runs` prove that every action keeps it; `Theorems` says what it means without mentioning locations. `Outcomes` says
what the handlers achieve (who is restored, what a handler carries, what a placement and a closure leave behind, when a
process counts as free, and that no step is ever blocked), and `Exchange` which messages pass between control plane and
runtimes, with which sizes. `AliveSets` proves for each session when its entries in the ALIVE and SWAPPED sets are
exact, and `Overlaps` gives runs that show that neither of the conditions there is idle.

**The same protocol in the source's own form.** `Resources` has the control plane's hash maps of objects with
pointers from processes into the session table; `RedisStore` has the Redis commands; `ControlPlane` has the worker
and its handlers. Every piece of a handler that other threads cannot split is a method that carries out one action of
the protocol; `Worker.Others` lets any threads take any pieces in any order, and `ProcessClient` and
`HandleSessionClosure` run their pieces with arbitrary turns of other threads in every gap. Redis and the tables are
then where a run of the protocol is, so what is proved of runs holds of the handlers however they interleave.
`RuntimeProcess` is the remote Process object, and `ForkLock` shows why its mutex spans the fork.

**Messages.** `Wire` has fixed-width fields and strncpy; `CommonMessages` and `RuntimeMessages` are the two
hand-written codecs, with methods that fill arrays in place; `MessagePairs` proves that they agree on reused buffers
and on every message the protocol sends. `InvocationStream` has the sender's and the receiver's side of a stream of
invocations, `Deliveries` what arrives of them over a whole run, `BufferPool` the queue of payload buffers.
`SessionRecord` and `MemorySize` have the decimal record and the memory size arithmetic, and `Layouts` writes every
message out byte by byte.

**Local memory.** `Handshake` is the epoll thread and the workers on one connection with arbitrary client bytes.
`MemoryOps` says what the operations mean on a plain map, `MemoryServer` is the server with any number of clients and
the nodes and accessors of the concurrent hash map, `MemoryProgress` proves that it always gets done, `MemoryMessages`
is its codec, and `LocalMemory` has the objects: cache, connection slots, worker and client library.

**Shared memory.** `SharedMemory` keeps account of mappings and of paths through creation, moves, vector growth,
erasure and destruction.

## What is assumed

- UUIDs are fresh, 16 bytes long and free of NUL bytes; the machine is little-endian; sockets deliver bytes in order.
- A process identifies itself once, and its connection then stays up. A pid is not reused before its child was
  waited for.
- A message handler takes its message off the connection and then runs on; further messages of the same process may
  be handled meanwhile. The source re-arms its epoll entry only at the end, so it has fewer interleavings.
- The concurrent hash map is oneTBB's, which is not part of this model: a lookup or insertion takes its accessor
  together with finding the node, `erase` unlinks the node at once whoever holds an accessor of it, and then waits
  for them before it destroys the node and returns.
- `C` integers are modelled with their widths where a value can leave them (payload and memory sizes, statuses,
  `max_sessions` cast to `size_t`); counters that are proved to stay small are unbounded integers.

## Where the source does not do what one might expect

- The comment in system/common/messages.hpp:45-49 puts the two status bytes before the size; both codecs put the
  size first. The comment at runtime/include/praas/messages.hpp:13-18 says 8 bytes in all; the message has 24.
- A closure handler first removes `SESSIONS_ALIVE_<process id>`, a key that nothing ever adds to; the entry under the
  global id goes last. The comment there speaks of a move "from swapped to alive"; it is the other way round.
- A session can be placed on a process of another global id. When it closes, it is parked under that other id, and
  the entry under its own id stays in ALIVE (`Overlaps.TwoGlobalsBreakSets`); from then on, and only then, its
  entries are wrong (`AliveSets.ExactIff`).
- A placement whose request is lost is counted exactly: the process had not connected yet, or it is new and the
  session is being swapped in (`Theorems.DroppedIff`).
- Session::start calls receive once on the control plane's connection, so of several queued invocations only the first
  is read (`InvocationStream.OneReceiveTakesOne`).
- A function that returns -1 (modulo 65536) looks like one that announces an empty piece of data
  (`RuntimeMessages.EndIsFinalIff`).
- The busy flag may be set after the worker has already cleared it, or the worker may give up on a payload; the
  connection then stays busy for good, and in no other way (`Handshake.BecomesStuckIff`, `Handshake.StuckForever`).
- Erasing any session but the last leaves its segment mapped and linked (`SharedMemory.SegmentVector.Erase`), for good
  (`SharedMemory.UniqueOwnership`, `SharedMemory.LinkedIff`).
- A create with a negative size field stores an object whose size is a huge number; a client's get then treats the
  object as missing (`LocalMemory.Memory.Get`).
- A request of a client that sends a reply's type, or no type at all, is answered with a failure of an unknown type
  (`LocalMemory.OthersRefused`).
- A receive whose payload read fails still invokes the function, with a length of -1
  (`InvocationStream.ReceiveWith`).

## Model

| member | source | states |
|---|---|---|
| Theorems.TracesDisjoint | system/control-plane/worker.cpp:113-180 | in every run, the requests on their way to a process, its hosted sessions, its deletion threads, the closures on their way back and those being handled name pairwise different sessions, each once, all on the control plane's duplicate-free list, which never exceeds max_sessions |
| Theorems.NeverRefused | runtime/lib/process.cpp:137-177 | in every run, every allocation request is granted: the entry is appended and the status is SUCCESS, or UNKNOWN_FAILURE without shared memory, never NO_MORE_CAPACITY or SESSION_CONFLICT |
| Theorems.NoRefusalOnTheWire | runtime/lib/process.cpp:123-129 | no status message on any connection ever carries a refusal |
| Theorems.Conservation | system/control-plane/worker.cpp:74-182 | after every run each created session is in exactly one place and once: claimed by one client handler, on one process's list, in one SWAPPED set, or inside one closure handler |
| Theorems.OneWinPerClosure | system/control-plane/worker.cpp:78-99 | restores that won plus one if the session is swapped equal the closures that parked it, so each closure lets at most one of any number of concurrent restores win |
| Theorems.ConfigurationSurvives | system/control-plane/worker.cpp:81-96 | whenever a restore has won, the record exists and yields the functions and the negated memory size given at creation, through any number of swaps |
| Theorems.SegmentsKeepTheirSize | runtime/lib/process.cpp:214-222 | for 1 to 2097151 kB every segment of every process and every reported closure has the byte count asked for at creation |
| Theorems.CapacityAccounting | system/control-plane/resources.cpp:19-40 | at every step the counter of a process equals its list plus the places reserved on it, between 0 and max_sessions |
| Theorems.InvocationsConserved | system/control-plane/worker.cpp:272-301 | for each session the invocations submitted so far equal those written to its connections followed by those queued, in order |
| Theorems.OneRequestPerPlacement | system/control-plane/worker.cpp:115-152 | requests written for a session on a process, dropped placements and a possible wait for identification add up to its placements there; after identification nothing waits |
| Theorems.DroppedIff | system/control-plane/worker.cpp:130-149 | a placement is dropped exactly if its process has not connected, or is new and the session is a swap-in |
| Theorems.IdentifyRequests | system/control-plane/worker.cpp:208-236 | identification writes exactly one request for each listed session that was not allocated, in list order, and nothing else |
| Runs.RunInv | system/control-plane/worker.cpp:59-335 | every action keeps the joint invariant of control plane, channels and runtimes |
| Moves.AllocationSucceeds | runtime/lib/process.cpp:148-162 | a pending request finds room and no entry of its session |
| Identification.RequestAllEffect | system/control-plane/worker.cpp:211-235 | what the identification loop does to all tables at once |
| Outcomes.RestoreIff | system/control-plane/worker.cpp:72-100 | after any run, a request for a named session is let through if and only if the session is in the SWAPPED set and not in the ALIVE set; it then comes with the functions and the negated size of its creation, and otherwise gets a 400 and changes nothing |
| Outcomes.NewSession | system/control-plane/worker.cpp:101-110 | a request without a session gets a new one with the configuration it came with, whose record parses to that |
| Outcomes.HandlerCarries | system/control-plane/worker.cpp:59-185 | in every run each handler has the global process, the session, the invocation and the configuration that its own request asked for |
| Outcomes.PlacementIs | system/control-plane/worker.cpp:117-177 | the session goes to the end of the list, its invocation to the end of its queue, its fields are the job's, a request is written exactly on a connected existing process, and nothing else changes |
| Outcomes.SubmittedIsAskedFor | system/control-plane/worker.cpp:123-126 | over every run, what counts as submitted for a session are the invocations of the requests that placed it, each once and in the order of the placements |
| Outcomes.FreeIff | system/control-plane/resources.cpp:19-32 | after any run a process is found if and only if its sessions and reservations are fewer than its maximum, and the search fails if and only if they equal it on every process |
| Outcomes.ClosureIs | system/control-plane/worker.cpp:313-335 | after any run a closure takes the session off its list, gives back its place and parks it under the process's global id, and changes nothing else |
| Outcomes.ClientGoesOn | system/control-plane/worker.cpp:59-185 | no client handler is ever blocked |
| Outcomes.CloserGoesOn | system/control-plane/worker.cpp:313-335 | no closure handler is ever blocked |
| Outcomes.LinkGoesOn | system/control-plane/worker.cpp:187-236 | no connection is ever blocked on its way to identification, and its messages are taken up |
| Outcomes.RuntimeGoesOn | runtime/lib/process.cpp:118-132 | no runtime process is ever blocked between a request and its answer, or an ended child and its closure |
| Exchange.RequestsExact | system/control-plane/worker.cpp:130-134 | over every run, the requests on a connection are one for each placement and each awaited session, in order, with the functions and size of the session's creation, the size negated if and only if the caller named the session |
| Exchange.SignTells | runtime/lib/session.cpp:114-119 | for 1 to 2097151 kB a creation's size is positive, a restore's negative, and both map the same bytes |
| Exchange.ChannelKeepsOrder | system/control-plane/worker.cpp:337-390 | over every run, messages are taken off in the order in which they were written, none lost and none twice |
| Exchange.EveryRequestAnswered | runtime/lib/process.cpp:118-132 | over every run, the statuses written answer the requests read, each once and in order |
| Exchange.DeletionReports | runtime/lib/process.cpp:196-242 | after any run the end of a child removes its entry and adds one closure of its session, of 0 bytes without swapping and of the size of its creation with it |
| Exchange.ClosuresExact | runtime/lib/process.cpp:214-223 | over every run, a process with swapping disabled reports 0 for every session and one with it enabled the size of its creation |
| AliveSets.ExactIff | system/control-plane/worker.cpp:313-335 | in every run in which handlers of a session do not overlap, at every moment without one, the session has exactly one entry, in ALIVE exactly if it is on a list, if and only if so far each of its closures was handled for a process of the global id that its job had asked for |
| AliveSets.AliveOrSwapped | system/control-plane/worker.cpp:316-334 | with one global process that always holds: the session is in exactly one of ALIVE and SWAPPED, and in ALIVE exactly if it is on the list of some process |
| AliveSets.OneGlobalNeverStrays | system/control-plane/resources.cpp:19-32 | with one global process no closure is handled for another one |
| AliveSets.RunTidy | system/control-plane/worker.cpp:182 | the invariant of one session's entries, over every run in which its handlers do not overlap |
| Overlaps.SerialIsApart | system/control-plane/worker.cpp:59-185 | runs in which no two handlers at all overlap are among those |
| Overlaps.OverlapBreaksSets | system/control-plane/worker.cpp:154-182 | a run with overlapping handlers after which a session is in both sets |
| Overlaps.TwoGlobalsBreakSets | system/control-plane/resources.cpp:19-32 | a serial run with two global processes after which a parked session is still in ALIVE |
| SessionRecord.RecordRoundTrip | system/control-plane/worker.cpp:86-90 | parsing a record gives back the two numbers it was printed from, for all 32-bit pairs and whatever the targets held |
| SessionRecord.FromCharsPrint | system/control-plane/worker.cpp:106-109 | from_chars undoes to_string on every int32 |
| MemorySize.SizePreservedIff | runtime/lib/session.cpp:114-126 | creation and swap-in map the same positive byte count, and only the latter reads storage, exactly for 1 to 2097151 kB |
| Resources.Resources.AddProcess | system/control-plane/resources.cpp:8-11 | the tables get one entry and nothing else changes |
| Resources.Resources.GetProcess | system/control-plane/resources.cpp:13-17 | null exactly for an unknown id, otherwise the table's own object |
| Resources.Resources.GetSession | system/control-plane/resources.cpp:42-46 | likewise for sessions |
| Resources.Resources.GetFreeProcess | system/control-plane/resources.cpp:19-32 | a process whose counter was below its maximum, whatever its global id, with the counter one higher; null only if every counter has reached its maximum |
| Resources.Resources.AddSession | system/control-plane/resources.cpp:35-40 | an existing Session object is kept and reused; its pointer joins the list; all pointers still lead into the table |
| Resources.Resources.RemoveSession | system/control-plane/resources.cpp:54-68 | list and counter shrink by the first match, the Session object stays in the table |
| Resources.FirstIndex | system/control-plane/resources.cpp:57-64 | the search loop stops at the first entry with the id |
| Resources.Process.Erase | system/control-plane/resources.cpp:66-67 | counter and vector lose one entry together |
| ControlPlane.Worker.Configure | system/control-plane/worker.cpp:120-126 | the session has the request's fields, and its invocation at the end of its queue if and only if there is a function name |
| ControlPlane.PlacedQueue | system/control-plane/worker.cpp:123-126 | the same of the table function that the placements are proved against |
| ControlPlane.Worker.PlaceOnExisting | system/control-plane/worker.cpp:117-149 | the critical section on an existing process does to the object tables what the protocol's placement does to values |
| ControlPlane.Worker.PlaceOnNew | system/control-plane/worker.cpp:170-177 | likewise on a new process, for which no request is written |
| ControlPlane.Worker.ProcessProcess | system/control-plane/worker.cpp:187-236 | storing the connection and the loop over pending sessions; an unknown id changes nothing |
| ControlPlane.Worker.RequestPending | system/control-plane/worker.cpp:211-235 | the loop equals the recursive meaning of identification |
| ControlPlane.Worker.SendQueued | system/control-plane/worker.cpp:272-301 | the loop with one reused request object empties the queue, oldest first, and writes the stream that the queue stands for |
| ControlPlane.Worker.ProcessSession | system/control-plane/worker.cpp:248-301 | a known session's queue moves to what was written, as that stream; an unknown one changes nothing |
| ControlPlane.Worker.ClaimSwapped | system/control-plane/worker.cpp:78 | one Redis call is one action of the protocol, and the count decides the claim as the protocol does |
| ControlPlane.Worker.ReadConfig | system/control-plane/worker.cpp:81-91 | likewise for the record; the configuration is the protocol's whatever the caller passed |
| ControlPlane.Worker.ReserveProcess | system/control-plane/resources.cpp:19-32 | the unlocked search is one action, with or without a process |
| ControlPlane.Worker.AddNew | system/control-plane/worker.cpp:162-168 | adding the process is an action of its own, after which other threads see it |
| ControlPlane.Worker.PlaceSession | system/control-plane/worker.cpp:117-149 | the critical section that places a session is one action |
| ControlPlane.Worker.RemoveFromList | system/control-plane/worker.cpp:317-320 | the critical section of a closure is one action |
| ControlPlane.Worker.ParkSession | system/control-plane/worker.cpp:327-330 | parking is one action, under the process's global id |
| ControlPlane.Worker.IdentifyProcess | system/control-plane/worker.cpp:208-236 | the critical section of an identification is one action |
| ControlPlane.Worker.Perform | system/control-plane/worker.cpp:59-335 | whoever takes the next piece of whichever handler, the run of the protocol goes on by one action of that handler |
| ControlPlane.Worker.Others | system/control-plane/worker.cpp:59-335 | any turns of any threads in any order extend the run, and leave a handler whose turn it is not where it was |
| ControlPlane.Serve | system/control-plane/worker.cpp:59-335 | from empty tables, after any turns, Redis and the tables are in the state of a run of the protocol |
| ControlPlane.Worker.Restore | system/control-plane/worker.cpp:76-100 | a restore with any turns of other threads between its Redis calls has the outcome that the protocol gives it and the configuration of its creation; without such turns it succeeds if and only if Redis has the session swapped and not alive on entry |
| ControlPlane.Worker.ProcessClient | system/control-plane/worker.cpp:59-185 | process_client with any turns of other threads in each of its gaps extends the run, its reply is the protocol's, and after a 200 the session is in ALIVE; without such turns it answers 200 if and only if the process is known and the session is new or parked |
| ControlPlane.Worker.HandleSessionClosure | system/control-plane/worker.cpp:313-335 | handle_session_closure, likewise with any turns in its gaps, extends the run and is finished |
| ControlPlane.TargetsIgnored | system/control-plane/worker.cpp:86-90 | whatever a caller passes along with a session id, reading the record of a claimed session gives the same configuration |
| ControlPlane.TurnAlone | system/control-plane/worker.cpp:59-335 | no action moves a handler other than its own, or uses up an id that its turn did not draw |
| ControlPlane.PlaceSteps | system/control-plane/worker.cpp:119-149 | the placement of the protocol is the sequence of updates that the code makes |
| RedisStore.Redis.Srem | system/control-plane/worker.cpp:78 | the count tells whether the member was there, so one of several callers sees 1 |
| RuntimeProcess.Process.AllocateSession | runtime/lib/process.cpp:137-177 | which status for a full list, a known id, a failed and a successful fork, and the new entry with its size and pid; the entry of a failed fork stays; ids and pids stay distinct and the size within bounds |
| RuntimeProcess.Process.SessionDeleted | runtime/lib/process.cpp:193-239 | the entry of the child leaves the list with a closure of its bytes if swapping is enabled and of 0 if not, an unknown pid changes nothing, and no entry has the pid afterwards |
| RuntimeProcess.Process.HandleRequest | runtime/lib/process.cpp:118-132 | one turn of the message loop, from received bytes to written bytes |
| RuntimeProcess.Process.ReportDeleted | runtime/lib/process.cpp:240-243 | the bytes of the closure |
| ForkLock.ChildAlwaysFound | runtime/lib/process.cpp:199-211 | in every interleaving a deletion thread finds the entry of the session its child was started for |
| ForkLock.ListAlwaysGood | runtime/lib/process.cpp:147-173 | in every interleaving ids are distinct, live pids are distinct, the size is within max_sessions |
| ForkLock.SectionsAreAtomic | runtime/lib/process.cpp:146-174 | whenever the mutex is free the list is what the critical sections left so far produce without interruption |
| ForkLock.NeverBlocked | runtime/lib/process.cpp:147-173 | in every interleaving the mutex is released again, and while it is free a request is taken in or refused, the latter if and only if the list is full or has the session |
| ForkLock.LockNeeded | runtime/lib/session.cpp:183-209 | without the mutex a child that ends before its pid is stored is missed and its entry stays |
| Wire.Le32RoundTrip | runtime/lib/messages.cpp:55-63 | a 32-bit store and load keep what fits |
| Wire.FieldRoundTrip | runtime/lib/messages.cpp:70-84 | a text field gives back the C string up to the field's size |
| Wire.SpliceReads | system/common/messages.cpp:107-116 | a written field reads back and everything outside it is unchanged |
| Wire.PutText | system/common/messages.cpp:114 | strncpy: copy up to the NUL or the size, then pad |
| CommonMessages.Request.FillSession | system/common/messages.cpp:107-116 | the array after the fill, for any earlier contents |
| CommonMessages.Request.FillFunction | system/common/messages.cpp:150-159 | likewise; only two bytes of the payload size are written |
| CommonMessages.ProcessRequestReads | system/common/messages.cpp:118-148 | a process request reads back through its accessors, whatever the buffer held |
| RuntimeMessages.SendMessage.FillSessionClose | runtime/lib/messages.cpp:20-26 | the array after the fill |
| RuntimeMessages.SendMessage.FillSessionStatus | runtime/lib/messages.cpp:28-34 | the array after the fill |
| RuntimeMessages.AnswerReads | runtime/include/praas/messages.hpp:20-23 | data and errors are read as documented; so is an end, unless its code is -1 in 16 bits |
| RuntimeMessages.EndIsFinalIff | runtime/include/praas/messages.hpp:52-58 | an end is recognised as final exactly if its code is not -1 modulo 65536 |
| Layouts.LittleEndian | runtime/lib/messages.cpp:55-63 | the bytes of a stored integer, the lowest first |
| Layouts.TextField | runtime/lib/messages.cpp:70-84 | each byte of a text field: the text's up to its first NUL, then NULs |
| Layouts.SessionRequest | system/common/messages.cpp:107-116 | the 39 bytes of a session request |
| Layouts.ProcessRequest | system/common/messages.cpp:118-148 | the 39 bytes of a process request |
| Layouts.FunctionRequest | system/common/messages.cpp:150-159 | the 39 bytes of a function request, two of which are not written |
| Layouts.Identification | runtime/lib/messages.cpp:8-18 | the 24 bytes of both identifications |
| Layouts.SessionMessages | runtime/lib/messages.cpp:20-34 | the 24 bytes of a closure and of a status, the size before the status |
| Layouts.Answers | runtime/include/praas/messages.hpp:20-66 | the 24 bytes of data, errors and ends |
| Layouts.MemoryMessage | runtime/local-memory/messages.hpp:34-45 | the 38 bytes of a local memory message |
| Layouts.Decimal | system/control-plane/worker.cpp:106-109 | the digits of to_string are those of the decimal number, without leading zeros |
| Layouts.Record | system/control-plane/worker.cpp:106-109 | the record is the size, a semicolon and the number of functions, with minus signs |
| MessagePairs.SessionRequestArrives | runtime/lib/messages.cpp:36-63 | the runtime decodes any session request that the control plane filled, from any buffer |
| MessagePairs.LastMessageArrives | system/common/messages.cpp:8-22 | after any sequence of fills of one SendMessage the control plane sees the last one |
| MessagePairs.FunctionRequestArrives | system/common/messages.cpp:150-159 | after any fills of one FunctionRequest bytes 4 and 5 are zero and the runtime sees the last header, its size modulo 65536 |
| MessagePairs.HighHalfStaysZero | system/control-plane/worker.cpp:274-290 | bytes 4 and 5 stay zero through any number of fills |
| MessagePairs.ClosureIff | system/control-plane/worker.cpp:370-377 | a message is taken for a closure exactly if it is one or a status that is -1 in 16 bits, which allocate_session never sends |
| MessagePairs.RequestsArrive | system/control-plane/worker.cpp:130-134 | in every run every request of the protocol means the same to its reader |
| MessagePairs.NoticesArrive | system/control-plane/worker.cpp:370-375 | in every run every closure does too, and no status is taken for one |
| MessagePairs.IdentificationNamesTheProcess | runtime/lib/process.cpp:88-92 | a process identifies itself under the id of its table entry |
| InvocationStream.Session.Receive | runtime/include/praas/session.hpp:99-184 | receive does what the stream function says to connection, event and buffer queue, also when a read returns -1; the payload is in the memory of the buffer that is handed on |
| InvocationStream.FrameArrives | runtime/include/praas/session.hpp:133-170 | one frame with any contents: names are cut, the length is taken modulo 65536, the rest is left in the stream, and without a buffer the payload is not consumed |
| InvocationStream.StreamRoundTripIff | system/control-plane/worker.cpp:276-300 | the receiver recovers exactly the list that was sent if and only if every name is non-empty, NUL-free and at most 16 bytes, every id NUL-free and at most 16, every payload under 65536 bytes |
| InvocationStream.FramesRoundTrip | runtime/include/praas/session.hpp:109-148 | otherwise what is received differs from the list at the first item that is not well formed, whatever follows |
| InvocationStream.EmptyQueue | system/control-plane/worker.cpp:276-280 | an empty queue is one header that the receiver ignores |
| InvocationStream.RefusedIff | runtime/include/praas/session.hpp:133-142 | a message is refused if and only if it is cut short or does not begin with the bytes of an invocation |
| InvocationStream.NamesReceived | runtime/include/praas/session.hpp:145-148 | whatever the bytes, no invocation without a proper name comes out of a stream |
| InvocationStream.OneReceiveTakesOne | runtime/lib/session.cpp:286-294 | one receive takes the first item and leaves the frames of the others |
| Deliveries.DeliveriesArriveIff | system/control-plane/worker.cpp:248-301 | over every run, receivers that read each stream of a session to its end got exactly what was written for it if and only if all of that is well formed |
| Deliveries.SubmittedArrives | system/control-plane/worker.cpp:123-126 | over every run, well-formed invocations submitted for a session are those that arrived followed by those still queued, in order |
| Deliveries.DeliveredStep | system/control-plane/worker.cpp:272-301 | only the session's own identification writes to its connections, and it writes the whole queue |
| BufferPool.BufferQueue.RetrieveBuffer | runtime/include/praas/buffer.hpp:55-69 | the buffer handed out, the queue, the reallocation by queue length and what is deleted |
| BufferPool.FitsIff | runtime/include/praas/buffer.hpp:62-66 | a buffer is large enough exactly if the front one is or the queue is shorter than the size |
| BufferPool.NoBufferShared | runtime/include/praas/buffer.hpp:55-75 | after any run no memory is queued twice, queued and held, held twice, or deleted and still around |
| BufferPool.NothingLeaks | runtime/include/praas/buffer.hpp:62-75 | after any run memory that was handed out is queued or held by exactly one owner if and only if it was not deleted |
| BufferPool.BufferCount | runtime/lib/function.cpp:89-101 | queued plus held buffers are the initial ones plus completed invocations without payload minus null buffers popped and refused |
| Handshake.SingleReader | runtime/local-memory/server.cpp:66-99 | in every interleaving at most one task has not cleared the flag, and a header is read only when there is none |
| Handshake.FramingHolds | runtime/local-memory/worker.hpp:22-39 | tasks whose payload arrived are the first frames of everything the client sent, in order |
| Handshake.TasksAreRequests | runtime/local-memory/worker.hpp:20-39 | a client that writes whole messages, each with the data its size field announces, gets one task for each, in order, with that header, that data, type, size and name |
| Handshake.PayloadSizeIs | runtime/local-memory/worker.hpp:20-25 | the worker reads as many bytes as the size field of the message says, whatever the other fields are |
| Handshake.WaitingIff | runtime/local-memory/server.cpp:66-99 | after any run the server waits for the client if and only if the connection is stuck, or the epoll thread polls and no whole header is there |
| Handshake.AllServed | runtime/local-memory/worker.hpp:20-39 | when it waits and is not stuck, all whole requests that were sent have been served |
| Handshake.BecomesStuckIff | runtime/local-memory/server.cpp:98-99 | in every run an action leaves a connection busy with no worker to clear it exactly if it sets the flag after the newest task's worker was through, or is that worker's giving up after the flag was set |
| Handshake.StuckForever | runtime/local-memory/server.cpp:66-70 | from then on, whatever happens, it stays so and no request is read or served |
| Handshake.StuckStays | runtime/local-memory/server.cpp:66-70 | the client can still send, and nothing else can happen |
| Handshake.BusyForever | runtime/local-memory/server.cpp:98-99 | any request without a payload, whatever is sent behind it, can leave a connection in that state |
| MemoryServer.Linearizable | runtime/local-memory/worker.hpp:41-79 | for any number of synchronous clients, deletes under held accessors included, every reply is that of a plain map in one legal order that contains each request once and respects real time |
| MemoryServer.RunInv | runtime/local-memory/cache.cpp:7-33 | the invariant of table, nodes, accessors and log over all runs |
| MemoryServer.GetSeesOneVersion | runtime/local-memory/worker.hpp:64-77 | the announced size is that of the body that follows, and both are of the version looked up, also if the key is deleted and created anew meanwhile |
| MemoryServer.NodeLockedWhileRead | runtime/local-memory/cache.cpp:24-33 | while a get holds its accessor no action changes or destroys the node; a create or put of its key waits as long as the key is linked to it, and a delete unlinks it but does not return |
| MemoryOps.RepliesFollowWrites | runtime/local-memory/cache.cpp:7-33 | in every legal order a get returns the last write before it, create and put succeed if and only if nothing and something was there, delete if and only if there was something |
| MemoryProgress.NeverBlocked | runtime/local-memory/cache.cpp:7-33 | after any run, as long as a request is under way some worker can go on |
| MemoryProgress.BoundedWork | runtime/local-memory/worker.hpp:41-79 | without new requests every schedule is finite, with a bound on its steps |
| MemoryProgress.EveryRequestCompletes | runtime/local-memory/worker.hpp:41-79 | from any moment on the workers can answer all requests and release all accessors |
| MemoryOps.LogMore | runtime/local-memory/cache.cpp:7-33 | what one more operation adds to a legal order |
| MemoryMessages.MessageReads | runtime/local-memory/messages.hpp:40-71 | type, size and name read back, names cut to 32 bytes, independent of the buffer's past |
| MemoryMessages.SessionMessage.Send | runtime/local-memory/messages.hpp:40-45 | the array after the fill |
| LocalMemory.Cache.Create | runtime/local-memory/cache.cpp:7-13 | an upsert that reports whether the key was new |
| LocalMemory.Cache.Put | runtime/local-memory/cache.cpp:15-22 | only an existing key is updated |
| LocalMemory.Cache.Erase | runtime/local-memory/cache.cpp:29-33 | the key is gone, and whether it was there |
| LocalMemory.Worker.HandleSessionMessage | runtime/local-memory/worker.hpp:20-79 | from a header and the bytes behind it to the map and the reply, sizes of 2^64 - n for a negative size field included; a short or failed payload read leaves the flag set and no reply |
| LocalMemory.RequestArrives | runtime/include/praas/global_memory.hpp:46-54 | a client's request is the operation the worker carries out |
| LocalMemory.ReplyArrives | runtime/include/praas/global_memory.hpp:56-78 | the reply has the type that answers the request's and the object's name, its size tells failure from success, and a body of that size follows |
| LocalMemory.OthersRefused | runtime/local-memory/worker.hpp:58-69 | a header that does not begin with the bytes of a request changes nothing and is answered with a failure |
| LocalMemory.Memory.Create | runtime/include/praas/global_memory.hpp:44-57 | end to end, create stores the object and reports whether the name was new |
| LocalMemory.Memory.Get | runtime/include/praas/global_memory.hpp:64-79 | end to end, get returns the stored bytes or nothing, and nothing for an object that came with a negative size field |
| LocalMemory.SessionConnections.Insert | runtime/local-memory/connections.hpp:87-98 | the first free slot, whose own object is overwritten in place, or nothing if all 64 are taken |
| LocalMemory.SessionConnections.Poll | runtime/local-memory/server.cpp:66-99 | nothing while busy, release at end of stream or when the read fails, otherwise a header and the flag |
| SharedMemory.UniqueOwnership | runtime/lib/session.cpp:46-96 | over any creates, failed creates, opens, moves and destructions, a mapping that was made is with exactly one object, or was unmapped once, or was forgotten once by a move assignment |
| SharedMemory.PathsAccounted | runtime/lib/session.cpp:89-141 | for every path, creations are objects that will unlink it plus unlinks plus forgotten ones |
| SharedMemory.LinkedIff | runtime/lib/session.cpp:89-141 | a path created once exists exactly as long as an object owns it, and for good if it was forgotten |
| SharedMemory.HandlesIntact | runtime/lib/session.cpp:46-78 | an object is empty or has all the fields that create or open gave its mapping, so what it unlinks is its own path |
| SharedMemory.Segment.Destroy | runtime/lib/session.cpp:80-96 | a mapping is unmapped if the object has one, and its path is unlinked if the object owns it and has a descriptor |
| SharedMemory.DestructorBooks | runtime/lib/session.cpp:80-96 | the destructor of the class and the one of the transition system release the same |
| SharedMemory.MoveBooks | runtime/lib/session.cpp:61-78 | so do the move assignments lose the same |
| SharedMemory.SegmentVector.Grow | runtime/lib/process.cpp:164 | growth moves every element and releases nothing |
| SharedMemory.SegmentVector.Erase | runtime/lib/process.cpp:229 | erase shifts the later elements down; the erased segment is released exactly if it was the last |
| SharedMemory.Segment.Assign | runtime/lib/session.cpp:61-78 | move assignment takes over and forgets what the target held |

## Left out

- Sockets, epoll, TLS, HTTP routes, option parsing, logging, dlopen and configuration files, vfork and exec, docker,
  hole punching: replaced by channels, complete reads and outcomes chosen by the run.
- S3 and disk transfer and the bytes of a swapped session: only sizes are modelled.
- Fairness of schedulers and networks: lost allocation requests and connections that stay busy are characterised
  exactly, and no handler, runtime or memory worker is ever blocked, but that each gets its turn is not modelled.
- Lifetime of objects in the local memory: they are values here; the worker's deletion of the data it just stored is
  not modelled. A client's objects are at most 2147483647 bytes, as far as a 32-bit size field reaches.
- RuntimeProcess.Process.SessionDeleted: does not model waitpid or the time spent swapping.
- MemoryServer.Linearizable: covers connections whose header and payload reads are complete and on which no client
  closes with a request outstanding; Handshake covers one connection with arbitrary bytes.
- BufferPool.BufferQueue.RetrieveBuffer: does not claim that a buffer can hold the payload; FitsIff says when it can.
- InvocationStream.Session.Receive: a payload is kept in its buffer whatever the buffer's size, so what a write past
  the end would overwrite is not modelled; BufferPool.FitsIff says when it fits.
- Deliveries.DeliveriesArriveIff: is about receivers that read a stream to its end; Session::start makes one receive
  call on such a connection, which InvocationStream.OneReceiveTakesOne is about.
- ControlPlane.Worker.ProcessProcess: the connection and the critical section are one call here; Others interleaves
  them as two.
- ControlPlane.Worker.SendQueued: writes reach the connection completely; a write that fails is not modelled.
- AliveSets.ExactIff: says nothing about a session whose own handlers overlap, except that the sets can then be wrong
  (Overlaps.OverlapBreaksSets).
- SharedMemory.UniqueOwnership: munmap and shm_unlink are taken to succeed, and file descriptors, which the source
  never closes, are not counted.
- LocalMemory.SessionConnections.Insert: a worker that still serves the old connection of a slot while the slot is
  taken again is not modelled.
- The fields `SessionRequest::max_functions` and `memory_size` of system/common/messages.cpp, which nothing uses;
  `ClientMessage`; process closure and `remove_process`, which are not implemented; peer-to-peer connections; the
  AWS backend; the local worker; per-thread worker maps.
- Process::shutdown and Session::shutdown, and object destruction order at exit.
