/** The remote runtime's Process object: its list of sessions, as the two critical sections of its mutex
    change it in place. */
module RuntimeProcess {
  import opened Bytes
  import opened MemorySize
  import opened Tables
  import opened RuntimeSessions
  import R = RuntimeMessages
  import Wire

  /** Distinct ids, no more entries than allowed, and no two entries with the same child. */
  ghost predicate GoodList(forks: seq<Fork>, maxSessions: int16) {
    && |forks| <= AsSize(maxSessions)
    && (forall i, j :: 0 <= i < j < |forks| ==> forks[i].session != forks[j].session)
    && (forall i, j :: 0 <= i < j < |forks| && forks[i].pid > 0 ==> forks[i].pid != forks[j].pid)
  }

  /** What the operating system guarantees about a child: its pid is positive and not in use. */
  ghost predicate FreshChild(forks: seq<Fork>, o: Outcome) {
    o.Child? ==> o.pid > 0 && FindPid(forks, o.pid) == |forks|
  }

  /** The new entry: its segment has the absolute value of the size in kilobytes, as far as an int32 reaches. */
  predicate EntryFor(f: Fork, r: Request, o: Outcome) {
    && f.session == r.session && f.maxFunctions == r.maxFunctions && f.memory == r.memory
    && f.pid == (match o case Child(pid) => pid case _ => -1)
    && (o.NoMemory? ==> f.bytes == -1)
    && (!o.NoMemory? && 0 <= r.memory <= 2097151 ==> f.bytes == r.memory * 1024)
    && (!o.NoMemory? && -2097151 <= r.memory < 0 ==> f.bytes == -r.memory * 1024)
  }

  class Process {
    const maxSessions: int16
    const swapping: bool
    var sessions: seq<Fork>

    constructor (maxSessions: int16, swapping: bool)
      ensures this.maxSessions == maxSessions && this.swapping == swapping && sessions == []
      ensures GoodList(sessions, maxSessions)
    {
      this.maxSessions, this.swapping, sessions := maxSessions, swapping, [];
    }

    /** allocate_session: the entry is added before the fork and stays when the fork fails. */
    method AllocateSession(r: Request, o: Outcome) returns (result: int16)
      requires GoodList(sessions, maxSessions) && FreshChild(sessions, o)
      modifies this`sessions
      ensures (sessions, result) == Allocate(old(sessions), maxSessions, r, o)
      ensures
        var full := |old(sessions)| >= if maxSessions < 0 then maxSessions + 0x1_0000_0000_0000_0000 else maxSessions;
        var there := exists k :: 0 <= k < |old(sessions)| && old(sessions)[k].session == r.session;
        && result == (if full then NO_MORE_CAPACITY else if there then SESSION_CONFLICT
                      else if o.NoMemory? then UNKNOWN_FAILURE else SUCCESS)
        && if full || there then sessions == old(sessions)
           else
             && |sessions| == |old(sessions)| + 1 && sessions[..|old(sessions)|] == old(sessions)
             && EntryFor(sessions[|old(sessions)|], r, o)
      ensures GoodList(sessions, maxSessions)
    {
      if |sessions| >= AsSize(maxSessions) {
        return NO_MORE_CAPACITY;
      }
      var k := 0;
      while k < |sessions| && sessions[k].session != r.session
        invariant k <= |sessions|
        invariant forall i :: 0 <= i < k ==> sessions[i].session != r.session
      {
        k := k + 1;
      }
      if k < |sessions| {
        assert Hosts(sessions, r.session);
        return SESSION_CONFLICT;
      }
      assert !Hosts(sessions, r.session);
      AppendKeepsGood(sessions, maxSessions, Forked(r, o));
      sessions := sessions + [Fork(r.session, r.maxFunctions, r.memory, -1, -1)];
      if o.NoMemory? {
        return UNKNOWN_FAILURE;
      }
      var last := |sessions| - 1;
      sessions := sessions[last := sessions[last].(pid := if o.Child? then o.pid else -1)];
      sessions := sessions[last := sessions[last].(bytes := SegmentBytes(r.memory))];
      assert sessions == old(sessions) + [Forked(r, o)];
      result := SUCCESS;
    }

    /** session_deleted: the entry of this child leaves the list and a closure is due; an unknown pid
        changes nothing. */
    method SessionDeleted(pid: int32) returns (closure: Option<Closure>)
      requires GoodList(sessions, maxSessions)
      modifies this`sessions
      ensures
        var k := FindPid(old(sessions), pid);
        if k == |old(sessions)| then closure == None && sessions == old(sessions)
        else closure == Some(Closing(old(sessions)[k], swapping)) && sessions == RemoveAt(old(sessions), k)
      ensures
        var k := FindPid(old(sessions), pid);
        k < |old(sessions)| ==>
          closure == Some(Closure(old(sessions)[k].session, if swapping then old(sessions)[k].bytes else 0))
      ensures GoodList(sessions, maxSessions)
      ensures pid > 0 ==> forall i :: 0 <= i < |sessions| ==> sessions[i].pid != pid
    {
      var k := 0;
      while k < |sessions| && sessions[k].pid != pid
        invariant k <= |sessions|
        invariant forall i :: 0 <= i < k ==> sessions[i].pid != pid
      {
        k := k + 1;
      }
      FindPidIs(sessions, pid, k);
      if k == |sessions| {
        return None;
      }
      RemoveKeepsGood(sessions, maxSessions, k);
      hide GoodList;
      var swappedMemory: int32 := 0;
      if swapping {
        swappedMemory := sessions[k].bytes;
      }
      closure := Some(Closure(sessions[k].session, swappedMemory));
      sessions := sessions[..k] + sessions[k + 1..];
    }

    /** One turn of the message loop: an allocation request is carried out and answered through the reused
        message object; anything else is refused without an answer. */
    method HandleRequest(data: seq<byte>, size: int, sendMsg: R.SendMessage, o: Outcome)
      returns (written: Option<seq<byte>>)
      requires |data| == R.EXPECTED_LENGTH && sendMsg.data.Length == R.SEND_LENGTH
      requires GoodList(sessions, maxSessions) && FreshChild(sessions, o)
      modifies this`sessions, sendMsg.data
      ensures GoodList(sessions, maxSessions)
      ensures
        match R.Parse(data, size)
        case Some(SessionRequestMsg(id, maxFunctions, memory)) =>
          var (forks, result) := Allocate(old(sessions), maxSessions, Request(id, maxFunctions, memory), o);
          sessions == forks && written == Some(R.Fill(old(sendMsg.data[..]), R.SessionStatus(result, id)))
        case _ => sessions == old(sessions) && written == None
    {
      var msg := R.Parse(data, size);
      hide R.Parse, GoodList, FreshChild, Allocate;
      if msg.None? || !msg.value.SessionRequestMsg? {
        return None;
      }
      var req := msg.value;
      var result := AllocateSession(Request(req.sessionId, req.maxFunctions, req.memorySize), o);
      sendMsg.FillSessionStatus(result, req.sessionId);
      written := Some(sendMsg.data[..]);
    }

    /** The thread that the end of a child starts: the closure is written from a message object of its own. */
    method ReportDeleted(pid: int32) returns (written: Option<seq<byte>>)
      requires GoodList(sessions, maxSessions)
      modifies this`sessions
      ensures
        var k := FindPid(old(sessions), pid);
        if k == |old(sessions)| then written == None && sessions == old(sessions)
        else
          var f := old(sessions)[k];
          && sessions == RemoveAt(old(sessions), k)
          && written == Some(R.Fill(Wire.Zeros(R.SEND_LENGTH),
                                    R.SessionClose(if swapping then f.bytes else 0, f.session)))
      ensures GoodList(sessions, maxSessions)
    {
      hide GoodList, FindPid, R.Fill;
      var closure := SessionDeleted(pid);
      if closure.None? {
        return None;
      }
      var msg := new R.SendMessage();
      msg.FillSessionClose(closure.value.bytes, closure.value.session);
      written := Some(msg.data[..]);
    }
  }

  lemma {:induction false} FindPidIs(forks: seq<Fork>, pid: int32, k: nat)
    requires k <= |forks| && (forall i :: 0 <= i < k ==> forks[i].pid != pid) && (k < |forks| ==> forks[k].pid == pid)
    ensures FindPid(forks, pid) == k
  {
    if k > 0 {
      FindPidIs(forks[1..], pid, k - 1);
    }
  }

  lemma AppendKeepsGood(forks: seq<Fork>, maxSessions: int16, f: Fork)
    requires GoodList(forks, maxSessions) && |forks| < AsSize(maxSessions) && !Hosts(forks, f.session)
    requires f.pid > 0 ==> FindPid(forks, f.pid) == |forks|
    ensures GoodList(forks + [f], maxSessions)
  {
    FindPidMisses(forks, f.pid);
    assert forall i :: 0 <= i < |forks| ==> forks[i].session != f.session;
  }

  lemma RemoveKeepsGood(forks: seq<Fork>, maxSessions: int16, k: nat)
    requires GoodList(forks, maxSessions) && k < |forks|
    ensures GoodList(RemoveAt(forks, k), maxSessions)
    ensures forks[k].pid > 0 ==> forall i :: 0 <= i < |RemoveAt(forks, k)| ==> RemoveAt(forks, k)[i].pid != forks[k].pid
  {
    var rest := RemoveAt(forks, k);
    assert forall i :: 0 <= i < |rest| ==> rest[i] == forks[if i < k then i else i + 1];
  }

  lemma FindPidMisses(forks: seq<Fork>, pid: int32)
    ensures FindPid(forks, pid) == |forks| <==> forall i :: 0 <= i < |forks| ==> forks[i].pid != pid
  {
  }
}
