/** The busy flag of the local memory server: one connection, the epoll thread that reads headers from it, and
    the workers that read payloads. The client may send any bytes at any time. A header is read whole; a
    payload may be cut short, and then its worker gives up. */
module Handshake {
  import opened Bytes
  import opened Wire
  import M = MemoryMessages
  import opened MemoryOps

  const HEADER_SIZE: nat := 38

  /** A worker's task: before its payload was read; read; read in part; after busy.store(false). */
  datatype Stage = Pending | Loaded | Failed | Released

  datatype Task = Task(header: seq<byte>, payload: seq<byte>, stage: Stage)

  /** The epoll thread: waiting for events; with a header it has read; after push_task. */
  datatype Phase = Polling | GotHeader(header: seq<byte>) | Pushed

  /** `sent` is all the client ever wrote, of which `read` bytes were read. */
  datatype State = State(sent: seq<byte>, read: nat, phase: Phase, busy: bool, tasks: seq<Task>)

  const INIT := State([], 0, Polling, false, [])

  datatype Action =
    | Send(bytes: seq<byte>)
    | ReadHeader
    | PushTask
    | SetBusy
    | ReadPayload(t: nat)
    | GiveUp(t: nat)
    | ClearBusy(t: nat)

  /** Only a positive payload field makes the worker read. */
  function PayloadSize(header: seq<byte>): (r: nat)
    requires |header| == HEADER_SIZE
  {
    var n := Int32(header[2..6]);
    if n > 0 then n else 0
  }

  predicate Whole(st: State) {
    st.read <= |st.sent| && forall t :: 0 <= t < |st.tasks| ==> |st.tasks[t].header| == HEADER_SIZE
  }

  predicate Enabled(st: State, a: Action) {
    Whole(st) &&
    match a
    case Send(_) => true
    case ReadHeader => st.phase.Polling? && !st.busy && |st.sent| - st.read >= HEADER_SIZE
    case PushTask => st.phase.GotHeader? && |st.phase.header| == HEADER_SIZE
    case SetBusy => st.phase.Pushed?
    case ReadPayload(t) =>
      t < |st.tasks| && st.tasks[t].stage.Pending? && |st.sent| - st.read >= PayloadSize(st.tasks[t].header)
    case GiveUp(t) =>
      t < |st.tasks| && st.tasks[t].stage.Pending? && |st.sent| - st.read < PayloadSize(st.tasks[t].header)
    case ClearBusy(t) => t < |st.tasks| && st.tasks[t].stage.Loaded?
  }

  function Apply(st: State, a: Action): (st': State)
    requires Enabled(st, a)
  {
    match a
    case Send(bytes) => st.(sent := st.sent + bytes)
    case ReadHeader =>
      st.(phase := GotHeader(st.sent[st.read..st.read + HEADER_SIZE]), read := st.read + HEADER_SIZE)
    case PushTask => st.(tasks := st.tasks + [Task(st.phase.header, [], Pending)], phase := Pushed)
    case SetBusy => st.(busy := true, phase := Polling)
    case ReadPayload(t) =>
      var n := PayloadSize(st.tasks[t].header);
      st.(tasks := st.tasks[t := st.tasks[t].(payload := st.sent[st.read..st.read + n], stage := Loaded)],
          read := st.read + n)
    case GiveUp(t) =>
      st.(tasks := st.tasks[t := st.tasks[t].(payload := st.sent[st.read..], stage := Failed)], read := |st.sent|)
    case ClearBusy(t) => st.(busy := false, tasks := st.tasks[t := st.tasks[t].(stage := Released)])
  }

  function Exec(acts: seq<Action>): (r: Option<State>) {
    if acts == [] then Some(INIT)
    else
      match Exec(acts[..|acts| - 1])
      case None => None
      case Some(st) => if Enabled(st, acts[|acts| - 1]) then Some(Apply(st, acts[|acts| - 1])) else None
  }

  // ----- how a byte stream is meant to be cut

  datatype Frame = Frame(header: seq<byte>, payload: seq<byte>)

  /** The frames that are complete in a stream. */
  function Cut(stream: seq<byte>): (r: seq<Frame>)
    decreases |stream|
  {
    if |stream| < HEADER_SIZE then []
    else
      var header, rest := stream[..HEADER_SIZE], stream[HEADER_SIZE..];
      var n := PayloadSize(header);
      if |rest| < n then [] else [Frame(header, rest[..n])] + Cut(rest[n..])
  }

  predicate IsFrame(f: Frame) { |f.header| == HEADER_SIZE && |f.payload| == PayloadSize(f.header) }

  function Joined(frames: seq<Frame>): (r: seq<byte>) {
    if frames == [] then []
    else Joined(frames[..|frames| - 1]) + frames[|frames| - 1].header + frames[|frames| - 1].payload
  }

  lemma CutOne(f: Frame, rest: seq<byte>)
    requires IsFrame(f)
    ensures Cut(f.header + (f.payload + rest)) == [f] + Cut(rest)
  {
    var stream := f.header + (f.payload + rest);
    assert stream[..HEADER_SIZE] == f.header;
    assert stream[HEADER_SIZE..] == f.payload + rest;
    assert (f.payload + rest)[..|f.payload|] == f.payload && (f.payload + rest)[|f.payload|..] == rest;
    hide PayloadSize;
  }

  lemma {:induction false} CutJoined(frames: seq<Frame>, rest: seq<byte>)
    requires forall f :: f in frames ==> IsFrame(f)
    ensures Cut(Joined(frames) + rest) == frames + Cut(rest)
    decreases |frames|
  {
    if frames == [] {
      assert Joined(frames) + rest == rest;
    } else {
      hide Cut, Joined, IsFrame;
      var before, f := frames[..|frames| - 1], frames[|frames| - 1];
      CutOne(f, rest);
      CutJoined(before, f.header + (f.payload + rest));
      JoinedSplits(frames, rest);
      Append(before, f, Cut(rest));
    }
  }

  lemma Append<T>(s: seq<T>, x: T, t: seq<T>)
    ensures s + [x] + t == s + ([x] + t)
  {
  }

  lemma JoinedSplits(frames: seq<Frame>, rest: seq<byte>)
    requires frames != []
    ensures
      var before, f := frames[..|frames| - 1], frames[|frames| - 1];
      frames == before + [f] && Joined(frames) + rest == Joined(before) + (f.header + (f.payload + rest))
  {
    Regroup(Joined(frames[..|frames| - 1]), frames[|frames| - 1].header, frames[|frames| - 1].payload, rest);
    hide Joined;
  }

  lemma Regroup(a: seq<byte>, b: seq<byte>, c: seq<byte>, d: seq<byte>)
    ensures a + b + c + d == a + (b + (c + d))
  {
  }

  // ----- the invariant

  /** A task that has not cleared the flag yet, or never will. */
  predicate Before(task: Task) { !task.stage.Released? }

  function FrameOf(task: Task): (r: Frame) { Frame(task.header, task.payload) }

  function Frames(tasks: seq<Task>): (frames: seq<Frame>)
    ensures |frames| == |tasks|
    ensures forall t :: 0 <= t < |tasks| ==> frames[t] == FrameOf(tasks[t])
  {
    seq(|tasks|, t requires 0 <= t < |tasks| => FrameOf(tasks[t]))
  }

  predicate TaskOk(task: Task) {
    |task.header| == HEADER_SIZE &&
    match task.stage
    case Pending => task.payload == []
    case Failed => |task.payload| < PayloadSize(task.header)
    case _ => |task.payload| == PayloadSize(task.header)
  }

  ghost predicate OneReader(st: State) {
    && (forall t :: 0 <= t < |st.tasks| && Before(st.tasks[t]) ==> t == |st.tasks| - 1)
    && (st.phase.GotHeader? ==> forall t :: 0 <= t < |st.tasks| ==> st.tasks[t].stage.Released?)
    && (st.phase.Polling? && !st.busy ==> forall t :: 0 <= t < |st.tasks| ==> st.tasks[t].stage.Released?)
  }

  ghost predicate Framed(st: State) {
    && (forall t :: 0 <= t < |st.tasks| ==> TaskOk(st.tasks[t]))
    && (st.phase.GotHeader? ==> |st.phase.header| == HEADER_SIZE)
    && st.read <= |st.sent|
    && st.sent[..st.read] == Joined(Frames(st.tasks)) + if st.phase.GotHeader? then st.phase.header else []
  }

  ghost predicate Inv(st: State) { OneReader(st) && Framed(st) }

  lemma OneReaderStep(st: State, a: Action)
    requires OneReader(st) && Enabled(st, a)
    ensures OneReader(Apply(st, a))
  {
  }

  lemma JoinedMore(frames: seq<Frame>, f: Frame)
    ensures Joined(frames + [f]) == Joined(frames) + f.header + f.payload
  {
    assert (frames + [f])[..|frames + [f]| - 1] == frames;
  }

  /** The last task read the bytes that follow. */
  lemma PayloadFollows(tasks: seq<Task>, task: Task, bytes: seq<byte>)
    requires tasks != [] && tasks[|tasks| - 1].payload == [] && task.header == tasks[|tasks| - 1].header
    requires task.payload == bytes
    ensures Joined(Frames(tasks[|tasks| - 1 := task])) == Joined(Frames(tasks)) + bytes
  {
    var last := |tasks| - 1;
    var before := Frames(tasks[..last]);
    JoinedMore(before, FrameOf(tasks[last]));
    JoinedMore(before, FrameOf(task));
    assert Frames(tasks) == before + [FrameOf(tasks[last])];
    assert Frames(tasks[last := task]) == before + [FrameOf(task)];
  }

  lemma PrefixGrows(sent: seq<byte>, i: nat, j: nat, bytes: seq<byte>)
    requires i <= j <= |sent| && bytes == sent[i..j]
    ensures sent[..j] == sent[..i] + bytes
  {
  }

  lemma ReadPart(st: State, t: nat, n: nat, stage: Stage)
    requires OneReader(st) && Framed(st) && t < |st.tasks| && st.tasks[t].stage.Pending? && st.read + n <= |st.sent|
    requires stage.Loaded? || stage.Failed?
    requires if stage.Loaded? then n == PayloadSize(st.tasks[t].header) else n < PayloadSize(st.tasks[t].header)
    ensures
      var task := st.tasks[t].(payload := st.sent[st.read..st.read + n], stage := stage);
      Framed(st.(tasks := st.tasks[t := task], read := st.read + n))
  {
    assert t == |st.tasks| - 1 && !st.phase.GotHeader?;
    var bytes := st.sent[st.read..st.read + n];
    var task := st.tasks[t].(payload := bytes, stage := stage);
    PayloadFollows(st.tasks, task, bytes);
    PrefixGrows(st.sent, st.read, st.read + n, bytes);
    hide Joined, Frames, PayloadSize;
  }

  lemma FramedStep(st: State, a: Action)
    requires OneReader(st) && Framed(st) && Enabled(st, a)
    ensures Framed(Apply(st, a))
  {
    hide Joined, Frames, PayloadSize, OneReader, Framed;
    match a
    case ReadPayload(t) => ReadPart(st, t, PayloadSize(st.tasks[t].header), Loaded);
    case GiveUp(t) =>
      assert st.sent[st.read..] == st.sent[st.read..|st.sent|];
      ReadPart(st, t, |st.sent| - st.read, Failed);
    case _ => QuietStep(st, a);
  }

  lemma PushStep(st: State)
    requires Framed(st) && Enabled(st, PushTask)
    ensures Framed(Apply(st, PushTask))
  {
    var st' := Apply(st, PushTask);
    JoinedMore(Frames(st.tasks), Frame(st.phase.header, []));
    assert Frames(st'.tasks) == Frames(st.tasks) + [Frame(st.phase.header, [])];
    hide Joined, Frames, PayloadSize;
  }

  lemma QuietStep(st: State, a: Action)
    requires OneReader(st) && Framed(st) && Enabled(st, a) && !a.ReadPayload? && !a.GiveUp?
    ensures Framed(Apply(st, a))
  {
    if a.PushTask? {
      PushStep(st) by { hide Framed; }
    } else {
      var st' := Apply(st, a);
      assert Frames(st'.tasks) == Frames(st.tasks) by { hide Framed, Joined, PayloadSize; }
      hide Joined, Frames, PayloadSize;
      if a.Send? {
        assert st'.sent[..st.read] == st.sent[..st.read];
      } else if a.ReadHeader? {
        PrefixGrows(st.sent, st.read, st'.read, st'.phase.header);
      }
    }
  }

  lemma {:induction false} RunInv(acts: seq<Action>)
    requires Exec(acts).Some?
    ensures Inv(Exec(acts).value)
  {
    if acts == [] {
      assert Frames([]) == [];
    } else {
      var before, last := acts[..|acts| - 1], acts[|acts| - 1];
      RunInv(before);
      OneReaderStep(Exec(before).value, last);
      FramedStep(Exec(before).value, last);
    }
  }

  // ----- results

  /** In every interleaving at most one task has not cleared the flag, the newest, and the epoll thread reads a
      header only when there is none; so no two threads ever read from the connection at once. */
  lemma SingleReader(acts: seq<Action>, st: State)
    requires Exec(acts) == Some(st)
    ensures forall t, u ::
      (0 <= t < |st.tasks| && 0 <= u < |st.tasks| && Before(st.tasks[t]) && Before(st.tasks[u])) ==> t == u
    ensures st.phase.GotHeader? || Enabled(st, ReadHeader) ==> forall t :: 0 <= t < |st.tasks| ==> !Before(st.tasks[t])
  {
    RunInv(acts);
  }

  /** The stream is always cut where it should be: the tasks whose payload was read in full are the first
      frames of everything the client sent, in order. */
  lemma FramingHolds(acts: seq<Action>, st: State)
    requires Exec(acts) == Some(st)
    ensures forall t :: 0 <= t < |st.tasks| && (st.tasks[t].stage.Loaded? || st.tasks[t].stage.Released?) ==>
      t < |Cut(st.sent)| && Cut(st.sent)[t] == FrameOf(st.tasks[t])
  {
    RunInv(acts);
    hide Exec, OneReader;
    forall t | 0 <= t < |st.tasks| && (st.tasks[t].stage.Loaded? || st.tasks[t].stage.Released?)
      ensures t < |Cut(st.sent)| && Cut(st.sent)[t] == FrameOf(st.tasks[t])
    {
      TaskIsFrame(st, t);
    }
  }

  lemma TaskIsFrame(st: State, t: nat)
    requires Inv(st) && t < |st.tasks| && (st.tasks[t].stage.Loaded? || st.tasks[t].stage.Released?)
    ensures t < |Cut(st.sent)| && Cut(st.sent)[t] == FrameOf(st.tasks[t])
  {
    var frames := Frames(st.tasks)[..t + 1];
    FramesWhole(st, t) by { hide Framed; }
    hide OneReader, Inv, IsFrame, Cut, Joined;
    PrefixOfJoined(Frames(st.tasks), t + 1);
    var rest := PrefixOfSent(st, frames);
    CutJoined(frames, rest);
    assert frames[t] == FrameOf(st.tasks[t]);
  }

  lemma FramesWhole(st: State, t: nat)
    requires OneReader(st) && (forall u :: 0 <= u < |st.tasks| ==> TaskOk(st.tasks[u])) && t < |st.tasks|
    requires st.tasks[t].stage.Loaded? || st.tasks[t].stage.Released?
    ensures forall f :: f in Frames(st.tasks)[..t + 1] ==> IsFrame(f)
  {
    hide PayloadSize;
    var frames := Frames(st.tasks)[..t + 1];
    forall u | 0 <= u < |frames| ensures IsFrame(frames[u]) {
      assert u < t ==> !Before(st.tasks[u]);
    }
  }

  lemma PrefixOfSent(st: State, frames: seq<Frame>) returns (rest: seq<byte>)
    requires Framed(st) && Joined(frames) <= Joined(Frames(st.tasks))
    ensures st.sent == Joined(frames) + rest
  {
    hide Joined, Frames, TaskOk;
    assert Joined(frames) <= st.sent[..st.read] <= st.sent;
    rest := st.sent[|Joined(frames)|..];
  }

  lemma {:induction false} PrefixOfJoined(frames: seq<Frame>, n: nat)
    requires n <= |frames|
    ensures Joined(frames[..n]) <= Joined(frames)
    decreases |frames|
  {
    if n == |frames| {
      assert frames[..n] == frames;
    } else {
      PrefixOfJoined(frames[..|frames| - 1], n);
      assert frames[..|frames| - 1][..n] == frames[..n];
    }
  }

  /** A client that sends whole frames gets one task for each, in its order. */
  lemma {:induction false} TasksAreFrames(acts: seq<Action>, st: State, frames: seq<Frame>, t: nat)
    requires Exec(acts) == Some(st) && st.sent == Joined(frames) && (forall f :: f in frames ==> IsFrame(f))
    requires t < |st.tasks| && st.tasks[t].stage.Released?
    ensures t < |frames| && FrameOf(st.tasks[t]) == frames[t]
  {
    hide Exec, Joined, Cut, IsFrame;
    FramingHolds(acts, st);
    CutJoined(frames, []);
    assert Joined(frames) + [] == Joined(frames);
    CutNothing();
  }

  lemma CutNothing()
    ensures Cut([]) == []
  {
  }

  // ----- the requests of the client library

  /** A request as the client writes it: a message, and as many bytes as its size field says. */
  datatype Request = Request(kind: int16, name: Text, data: seq<byte>)

  predicate Sendable(r: Request) { |r.data| <= 0x7FFF_FFFF }

  function Header(r: Request): (header: seq<byte>)
    requires Sendable(r)
    ensures |header| == HEADER_SIZE == M.BUF_SIZE
  {
    M.Fill(Zeros(M.BUF_SIZE), r.kind, r.name, |r.data|)
  }

  function Stream(requests: seq<Request>): (bytes: seq<byte>)
    requires forall r :: r in requests ==> Sendable(r)
  {
    if requests == [] then []
    else
      var last := requests[|requests| - 1];
      Stream(requests[..|requests| - 1]) + Header(last) + last.data
  }

  /** The worker reads as many bytes as the size field of the message says, whatever its other fields are. */
  lemma PayloadSizeIs(d: seq<byte>, kind: int16, name: Text, n: int32)
    requires |d| == M.BUF_SIZE
    ensures M.BUF_SIZE == HEADER_SIZE
    ensures PayloadSize(M.Fill(d, kind, name, n)) == if n > 0 then n else 0
  {
    M.MessageReads(d, kind, name, n);
    hide M.Fill, M.ParseType, M.ObjectName;
  }

  function FramesOf(requests: seq<Request>): (frames: seq<Frame>)
    requires forall r :: r in requests ==> Sendable(r)
    ensures |frames| == |requests|
    ensures forall k :: 0 <= k < |requests| ==> frames[k] == Frame(Header(requests[k]), requests[k].data)
  {
    seq(|requests|, k requires 0 <= k < |requests| => Frame(Header(requests[k]), requests[k].data))
  }

  lemma FramesFit(requests: seq<Request>)
    requires forall r :: r in requests ==> Sendable(r)
    ensures forall f :: f in FramesOf(requests) ==> IsFrame(f)
  {
    hide PayloadSize, M.Fill;
    forall k | 0 <= k < |requests| ensures IsFrame(FramesOf(requests)[k]) {
      assert requests[k] in requests;
      PayloadSizeIs(Zeros(M.BUF_SIZE), requests[k].kind, requests[k].name, |requests[k].data|);
    }
  }

  lemma {:induction false} StreamIsJoined(requests: seq<Request>)
    requires forall r :: r in requests ==> Sendable(r)
    ensures Stream(requests) == Joined(FramesOf(requests))
  {
    hide Header;
    if requests != [] {
      StreamIsJoined(requests[..|requests| - 1]);
      assert FramesOf(requests)[..|requests| - 1] == FramesOf(requests[..|requests| - 1]);
    }
  }

  /** A client that sends whole requests gets one task for each, in its order: each has the request's header, from
      which the worker reads type and name, and exactly its data. */
  lemma {:induction false} TasksAreRequests(acts: seq<Action>, st: State, requests: seq<Request>, t: nat)
    requires Exec(acts) == Some(st) && (forall r :: r in requests ==> Sendable(r)) && st.sent == Stream(requests)
    requires t < |st.tasks| && st.tasks[t].stage.Released?
    ensures t < |requests| && st.tasks[t].payload == requests[t].data
    ensures |st.tasks[t].header| == M.BUF_SIZE && st.tasks[t].header == Header(requests[t])
    ensures M.Payload(st.tasks[t].header) == |requests[t].data|
    ensures M.ObjectName(st.tasks[t].header) == Kept(requests[t].name, NAME_SIZE)
    ensures M.CREATE <= requests[t].kind <= M.DELETE_REPLY ==> M.ParseType(st.tasks[t].header) == requests[t].kind
  {
    hide Exec, Joined, IsFrame, Stream, M.Fill, M.ParseType, M.Payload, M.ObjectName, Kept;
    FramesFit(requests);
    StreamIsJoined(requests);
    TasksAreFrames(acts, st, FramesOf(requests), t);
    var r := requests[t];
    assert r in requests;
    M.MessageReads(Zeros(M.BUF_SIZE), r.kind, r.name, |r.data|);
  }

  /** Nothing happens until the client sends more. */
  ghost predicate Waiting(st: State) { forall a :: Enabled(st, a) ==> a.Send? }

  /** After any run: the server waits exactly if the connection is stuck, or the epoll thread polls and no whole
      header is there. */
  lemma {:induction false} WaitingIff(acts: seq<Action>, st: State)
    requires Exec(acts) == Some(st)
    ensures Waiting(st) <==> Stuck(st) || (st.phase.Polling? && !st.busy && |st.sent| - st.read < HEADER_SIZE)
  {
    hide Exec, Joined, PayloadSize;
    RunInv(acts);
    if st.phase.GotHeader? {
      assert Enabled(st, PushTask);
    } else if st.phase.Pushed? {
      assert Enabled(st, SetBusy);
    } else if !st.busy {
      assert |st.sent| - st.read >= HEADER_SIZE ==> Enabled(st, ReadHeader);
    } else if t: nat :| t < |st.tasks| && !st.tasks[t].stage.Released? && !st.tasks[t].stage.Failed? {
      assert st.tasks[t].stage.Loaded? ==> Enabled(st, ClearBusy(t));
      assert st.tasks[t].stage.Pending? ==> Enabled(st, ReadPayload(t)) || Enabled(st, GiveUp(t));
    }
  }

  /** After any run: when the server waits and is not stuck, a client that sent whole requests has had all of them
      served. */
  lemma {:induction false} AllServed(acts: seq<Action>, st: State, requests: seq<Request>)
    requires Exec(acts) == Some(st) && (forall r :: r in requests ==> Sendable(r)) && st.sent == Stream(requests)
    requires Waiting(st) && !Stuck(st)
    ensures |st.tasks| == |requests| && forall t :: 0 <= t < |st.tasks| ==> st.tasks[t].stage.Released?
  {
    hide Exec, Joined, IsFrame, Stream, Waiting, Stuck, Header, Frames, Framed;
    WaitingIff(acts, st);
    RunInv(acts);
    ReadWhole(st);
    FramesFit(requests);
    StreamIsJoined(requests);
    var frames := FramesOf(requests);
    forall t | 0 <= t < |st.tasks| ensures t < |frames| && FrameOf(st.tasks[t]) == frames[t] {
      TasksAreFrames(acts, st, frames, t);
    }
    if st.tasks != [] {
      TasksAreFrames(acts, st, frames, |st.tasks| - 1);
    }
    assert frames[..|st.tasks|] == Frames(st.tasks) by {
      FramesAt(st.tasks);
    }
    if |st.tasks| < |frames| {
      MoreToRead(frames, |st.tasks|);
    }
  }

  lemma FramesAt(tasks: seq<Task>)
    ensures |Frames(tasks)| == |tasks|
    ensures forall t :: 0 <= t < |tasks| ==> Frames(tasks)[t] == FrameOf(tasks[t])
  {
  }

  lemma ReadWhole(st: State)
    requires Framed(st) && st.phase.Polling?
    ensures st.read == |Joined(Frames(st.tasks))|
  {
    hide Joined, Frames, TaskOk;
  }

  lemma MoreToRead(frames: seq<Frame>, n: nat)
    requires n < |frames| && forall f :: f in frames ==> IsFrame(f)
    ensures |Joined(frames)| >= |Joined(frames[..n])| + HEADER_SIZE
  {
    hide Joined, PayloadSize;
    PrefixOfJoined(frames, n + 1);
    assert frames[..n + 1] == frames[..n] + [frames[n]];
    assert frames[n] in frames;
    JoinedMore(frames[..n], frames[n]);
  }

  // ----- when a connection stays busy

  /** The flag is set and no worker is left that will clear it. */
  predicate Stuck(st: State) {
    && st.phase.Polling? && st.busy
    && forall t :: 0 <= t < |st.tasks| ==> st.tasks[t].stage.Released? || st.tasks[t].stage.Failed?
  }

  /** The worker of the newest task is through with the flag. */
  predicate NewestDone(st: State) {
    st.tasks != [] && (st.tasks[|st.tasks| - 1].stage.Released? || st.tasks[|st.tasks| - 1].stage.Failed?)
  }

  lemma {:induction false} PushedTask(acts: seq<Action>)
    requires Exec(acts).Some? && Exec(acts).value.phase.Pushed?
    ensures Exec(acts).value.tasks != []
  {
    var before := acts[..|acts| - 1];
    hide PayloadSize, Whole;
    if !acts[|acts| - 1].PushTask? {
      PushedTask(before);
    }
  }

  /** In every run an action leaves the connection stuck exactly if the flag is set after the newest task's worker
      was through with it, or that worker gives up on its payload after the flag was set. */
  lemma BecomesStuckIff(acts: seq<Action>, st: State, a: Action)
    requires Exec(acts) == Some(st) && Enabled(st, a) && !Stuck(st)
    ensures Stuck(Apply(st, a)) <==> (a.SetBusy? && NewestDone(st)) || (a.GiveUp? && st.phase.Polling?)
  {
    hide Exec, Framed, PayloadSize, Whole;
    RunInv(acts);
    if a.SetBusy? {
      PushedTask(acts);
      assert forall t :: 0 <= t < |st.tasks| - 1 ==> !Before(st.tasks[t]);
    } else if a.GiveUp? {
      assert Before(st.tasks[a.t]);
      assert forall t :: 0 <= t < |st.tasks| - 1 ==> !Before(st.tasks[t]);
    } else {
      OtherwiseNot(st, a);
    }
  }

  lemma OtherwiseNot(st: State, a: Action)
    requires OneReader(st) && Enabled(st, a) && !Stuck(st) && !a.SetBusy? && !a.GiveUp?
    ensures !Stuck(Apply(st, a))
  {
    hide PayloadSize, Whole;
    if a.ReadPayload? {
      assert Apply(st, a).tasks[a.t].stage.Loaded?;
    }
  }

  /** And then for good: whatever follows, only the client acts, nothing more is read and no task is added. */
  lemma {:induction false} StuckForever(acts: seq<Action>, st: State, more: seq<Action>, st': State)
    requires Exec(acts) == Some(st) && Stuck(st) && Exec(acts + more) == Some(st')
    ensures Stuck(st') && st'.tasks == st.tasks && st'.read == st.read && st.sent <= st'.sent
    ensures forall a :: a in more ==> a.Send?
    decreases |more|
  {
    hide Exec, Stuck, Apply, Enabled;
    if more == [] {
      assert acts + more == acts;
    } else {
      var before, last := more[..|more| - 1], more[|more| - 1];
      var middle := LastStep(acts, more, st');
      StuckForever(acts, st, before, middle);
      StuckStays(middle, last);
      assert more == before + [last];
    }
  }

  lemma LastStep(acts: seq<Action>, more: seq<Action>, st': State) returns (middle: State)
    requires more != [] && Exec(acts + more) == Some(st')
    ensures Exec(acts + more[..|more| - 1]) == Some(middle)
    ensures Enabled(middle, more[|more| - 1]) && st' == Apply(middle, more[|more| - 1])
  {
    hide Enabled, Apply;
    assert (acts + more)[..|acts + more| - 1] == acts + more[..|more| - 1];
    middle := Exec(acts + more[..|more| - 1]).value;
  }

  lemma StuckStays(st: State, a: Action)
    requires Stuck(st) && Enabled(st, a)
    ensures a.Send? && Stuck(Apply(st, a))
    ensures Apply(st, a).tasks == st.tasks && Apply(st, a).read == st.read && st.sent <= Apply(st, a).sent
  {
    hide PayloadSize, Whole;
  }

  /** The flag is stored after the task was pushed, so a quick worker may clear it first: any request without a
      payload can leave the connection stuck. */
  lemma BusyForever(header: seq<byte>, more: seq<byte>) returns (acts: seq<Action>, st: State)
    requires |header| == HEADER_SIZE && PayloadSize(header) == 0
    ensures Exec(acts) == Some(st) && st.sent == header + more && Stuck(st)
  {
    hide Exec, PayloadSize;
    acts, st := Run0(), INIT;
    acts, st := Run(acts, st, Send(header + more)), Apply(st, Send(header + more));
    acts, st := Run(acts, st, ReadHeader), Apply(st, ReadHeader);
    assert st.phase.header == header;
    acts, st := Run(acts, st, PushTask), Apply(st, PushTask);
    acts, st := Run(acts, st, ReadPayload(0)), Apply(st, ReadPayload(0));
    acts, st := Run(acts, st, ClearBusy(0)), Apply(st, ClearBusy(0));
    acts, st := Run(acts, st, SetBusy), Apply(st, SetBusy);
  }

  ghost function Run0(): (acts: seq<Action>)
    ensures Exec(acts) == Some(INIT)
  {
    []
  }

  ghost function Run(acts: seq<Action>, st: State, a: Action): (acts': seq<Action>)
    requires Exec(acts) == Some(st) && Enabled(st, a)
    ensures Exec(acts') == Some(Apply(st, a))
  {
    assert (acts + [a])[..|acts + [a]| - 1] == acts;
    acts + [a]
  }
}
