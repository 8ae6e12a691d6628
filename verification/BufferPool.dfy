/** The queue of payload buffers that a session's receiver and its function workers share
    (runtime/include/praas/buffer.hpp), and what happens to buffers over whole runs. */
module BufferPool {
  import opened Bytes

  /** `val` is the address of the memory; no address is the null pointer. */
  datatype Buffer = Buffer(val: Option<nat>, size: nat)

  const NULL_BUFFER := Buffer(None, 0)

  /** retrieve_buffer's comparison is between the length of the queue and the requested size. */
  predicate Reallocates(buffers: seq<Buffer>, size: nat) { |buffers| < size }

  /** The front of the queue, with new memory at address `next` if it is reallocated. */
  function Front(buffers: seq<Buffer>, size: nat, next: nat): (r: Buffer) {
    if buffers == [] then NULL_BUFFER
    else if Reallocates(buffers, size) then Buffer(Some(next), size)
    else buffers[0]
  }

  class BufferQueue {
    var buffers: seq<Buffer>
    var next: nat             // addresses below were handed out by new
    var freed: set<nat>       // addresses given to delete

    constructor (elements: nat, elemSize: nat)
      ensures |buffers| == elements == next && freed == {}
      ensures forall k :: 0 <= k < elements ==> buffers[k] == Buffer(Some(k), elemSize)
    {
      buffers, next, freed := [], 0, {};
      new;
      while next < elements
        invariant |buffers| == next <= elements && freed == {}
        invariant forall k :: 0 <= k < next ==> buffers[k] == Buffer(Some(k), elemSize)
      {
        buffers := buffers + [Buffer(Some(next), elemSize)];
        next := next + 1;
      }
    }

    method RetrieveBuffer(size: nat) returns (buf: Buffer)
      modifies this
      ensures buf == Front(old(buffers), size, old(next))
      ensures buffers == if old(buffers) == [] then [] else old(buffers)[1..]
      ensures next == old(next) + if old(buffers) != [] && Reallocates(old(buffers), size) then 1 else 0
      ensures freed == old(freed) + Discarded(old(buffers), size)
      ensures old(buffers) != [] && size > |old(buffers)| ==> buf == Buffer(Some(old(next)), size)
      ensures old(buffers) != [] && size > |old(buffers)| && old(buffers)[0].val.Some? ==>
        old(buffers)[0].val.value in freed
      ensures old(buffers) != [] && size <= |old(buffers)| ==> buf == old(buffers)[0] && freed == old(freed)
    {
      if buffers == [] {
        return NULL_BUFFER;
      }
      buf := buffers[0];
      if |buffers| < size {
        if buf.val.Some? {
          freed := freed + {buf.val.value};
        }
        buf := Buffer(Some(next), size);
        next := next + 1;
      }
      buffers := buffers[1..];
    }

    method ReturnBuffer(buf: Buffer)
      modifies this`buffers
      ensures buffers == old(buffers) + [buf]
    {
      buffers := buffers + [buf];
    }
  }

  function Discarded(buffers: seq<Buffer>, size: nat): (r: set<nat>) {
    if buffers != [] && Reallocates(buffers, size) && buffers[0].val.Some? then {buffers[0].val.value} else {}
  }

  /** A buffer is handed out that can hold the payload exactly when the front one can or is reallocated. */
  lemma FitsIff(buffers: seq<Buffer>, size: nat, next: nat)
    ensures Front(buffers, size, next).size >= size
      <==> size == 0 || (buffers != [] && (buffers[0].size >= size || |buffers| < size))
  {
  }

  // ----- runs of a session: one receiver, any number of invocations under way

  /** `held` are the buffers of invocations under way; `finishedEmpty` counts completed invocations without a
      payload, whose null buffer joins the queue; `lost` counts buffers of size 0 popped and refused. */
  datatype State = State(
    queue: seq<Buffer>, held: map<nat, Buffer>, next: nat, freed: set<nat>, finishedEmpty: nat, lost: nat)

  datatype Action =
    | Receive(i: nat, size: nat)   // a header with this payload size, for invocation i
    | Complete(i: nat)             // invoke returns the buffer

  function Init(elements: nat, elemSize: nat): (st': State) {
    State(seq(elements, (k: nat) => Buffer(Some(k), elemSize)), map[], elements, {}, 0, 0)
  }

  predicate Enabled(st: State, a: Action) {
    match a
    case Receive(i, _) => i !in st.held
    case Complete(i) => i in st.held
  }

  function Apply(st: State, a: Action): (st': State)
    requires Enabled(st, a)
  {
    match a
    case Receive(i, size) =>
      if size == 0 then st.(held := st.held[i := NULL_BUFFER])
      else
        var buf := Front(st.queue, size, st.next);
        if st.queue == [] then st
        else
          var st' := st.(queue := st.queue[1..], freed := st.freed + Discarded(st.queue, size),
                         next := st.next + if Reallocates(st.queue, size) then 1 else 0);
          if buf.size == 0 then st'.(lost := st.lost + 1) else st'.(held := st.held[i := buf])
    case Complete(i) =>
      st.(queue := st.queue + [st.held[i]], held := st.held - {i},
          finishedEmpty := st.finishedEmpty + if st.held[i].val.None? then 1 else 0)
  }

  function Exec(acts: seq<Action>, elements: nat, elemSize: nat): (r: Option<State>) {
    if acts == [] then Some(Init(elements, elemSize))
    else
      match Exec(acts[..|acts| - 1], elements, elemSize)
      case None => None
      case Some(st) => if Enabled(st, acts[|acts| - 1]) then Some(Apply(st, acts[|acts| - 1])) else None
  }

  /** Invocations under way that took a buffer from the queue. */
  function Holders(held: map<nat, Buffer>): (r: set<nat>) { set i | i in held && held[i].val.Some? }

  // ----- where an address can be

  datatype Owner = Queued(k: nat) | HeldBy(i: nat)

  predicate Owns(st: State, w: Owner, address: nat) {
    match w
    case Queued(k) => k < |st.queue| && st.queue[k].val == Some(address)
    case HeldBy(i) => i in st.held && st.held[i].val == Some(address)
  }

  /** Every address has one owner at most, was handed out, and was not deleted. */
  ghost predicate Unique(st: State) {
    && (forall v, w, x: nat :: Owns(st, v, x) && Owns(st, w, x) ==> v == w)
    && (forall w, x: nat :: Owns(st, w, x) ==> x < st.next && x !in st.freed)
    && (forall x :: x in st.freed ==> x < st.next)
  }

  ghost predicate Sized(st: State) {
    && (forall k :: 0 <= k < |st.queue| ==> (st.queue[k].size == 0 <==> st.queue[k].val.None?))
    && (forall i :: i in st.held ==> (st.held[i].size == 0 <==> st.held[i].val.None?))
  }

  ghost predicate Counted(st: State, elements: nat) {
    |st.queue| + |Holders(st.held)| + st.lost == elements + st.finishedEmpty
  }

  ghost predicate Inv(st: State, elements: nat) { Unique(st) && Sized(st) && Counted(st, elements) }

  /** Where the owner of an address was before the action. */
  function Before(st: State, a: Action, w: Owner): (r: Owner)
    requires Enabled(st, a)
  {
    match a
    case Receive(i, size) =>
      if size == 0 || st.queue == [] then w
      else if w.Queued? then Queued(w.k + 1)
      else if w.i == i then Queued(0) else w
    case Complete(i) => if w == Queued(|st.queue|) then HeldBy(i) else w
  }

  /** Apart from memory that was just allocated, an address has an owner after the action only if it had one before. */
  lemma OwnerBefore(st: State, a: Action, w: Owner, x: nat)
    requires Enabled(st, a) && Owns(Apply(st, a), w, x) && x < st.next
    ensures Owns(st, Before(st, a, w), x)
  {
  }

  lemma OwnerOfNew(st: State, a: Action, w: Owner, x: nat)
    requires Enabled(st, a) && Unique(st) && Owns(Apply(st, a), w, x) && x >= st.next
    ensures a.Receive? && w == HeldBy(a.i) && x == st.next && Apply(st, a).next == x + 1
  {
    assert !Owns(st, Before(st, a, w), x);
  }

  /** A deleted address had the front of the queue as its owner. */
  lemma NewlyFreed(st: State, a: Action, x: nat)
    requires Enabled(st, a) && x in Apply(st, a).freed && x !in st.freed
    ensures a.Receive? && Owns(st, Queued(0), x) && Reallocates(st.queue, a.size)
  {
  }

  lemma UniqueStep(st: State, a: Action)
    requires Unique(st) && Enabled(st, a)
    ensures Unique(Apply(st, a))
  {
    var st' := Apply(st, a);
    forall v, w, x: nat | Owns(st', v, x) && Owns(st', w, x) ensures v == w {
      if x < st.next {
        OwnerBefore(st, a, v, x);
        OwnerBefore(st, a, w, x);
        BeforeInjective(st, a, v, w, x);
      } else {
        OwnerOfNew(st, a, v, x);
        OwnerOfNew(st, a, w, x);
      }
    }
    forall x | x in st'.freed ensures x < st'.next {
      if x !in st.freed {
        NewlyFreed(st, a, x);
      }
    }
    forall w, x: nat | Owns(st', w, x) ensures x < st'.next && x !in st'.freed {
      StillAllocated(st, a, w, x);
    }
  }

  lemma BeforeInjective(st: State, a: Action, v: Owner, w: Owner, x: nat)
    requires Enabled(st, a) && Owns(Apply(st, a), v, x) && Owns(Apply(st, a), w, x)
    requires Before(st, a, v) == Before(st, a, w)
    ensures v == w
  {
  }

  lemma StillAllocated(st: State, a: Action, w: Owner, x: nat)
    requires Unique(st) && Enabled(st, a) && Owns(Apply(st, a), w, x)
    ensures x < Apply(st, a).next && x !in Apply(st, a).freed
  {
    var st' := Apply(st, a);
    if x in st'.freed && x !in st.freed {
      NewlyFreed(st, a, x);
      assert Owns(st, Queued(0), x);
    }
    if x >= st.next {
      OwnerOfNew(st, a, w, x);
    } else {
      OwnerBefore(st, a, w, x);
    }
  }

  lemma SizedStep(st: State, a: Action)
    requires Sized(st) && Enabled(st, a)
    ensures Sized(Apply(st, a))
  {
  }

  lemma HoldersMore(held: map<nat, Buffer>, i: nat, buf: Buffer)
    requires i !in held
    ensures |Holders(held[i := buf])| == |Holders(held)| + if buf.val.Some? then 1 else 0
  {
    assert Holders(held[i := buf]) == if buf.val.Some? then Holders(held) + {i} else Holders(held);
  }

  lemma HoldersLess(held: map<nat, Buffer>, i: nat)
    requires i in held
    ensures |Holders(held)| == |Holders(held - {i})| + if held[i].val.Some? then 1 else 0
  {
    var less := held - {i};
    HoldersMore(less, i, held[i]);
    assert less[i := held[i]] == held;
  }

  lemma CountedStep(st: State, a: Action, elements: nat)
    requires Sized(st) && Counted(st, elements) && Enabled(st, a)
    ensures Counted(Apply(st, a), elements)
  {
    hide Holders;
    match a
    case Receive(i, size) =>
      HoldersMore(st.held, i, if size == 0 then NULL_BUFFER else Front(st.queue, size, st.next));
    case Complete(i) => HoldersLess(st.held, i);
  }

  lemma {:induction false} RunInv(acts: seq<Action>, elements: nat, elemSize: nat)
    requires elemSize > 0 && Exec(acts, elements, elemSize).Some?
    ensures Inv(Exec(acts, elements, elemSize).value, elements)
  {
    if acts == [] {
      assert Holders(map[]) == {};
    } else {
      var before, last := acts[..|acts| - 1], acts[|acts| - 1];
      RunInv(before, elements, elemSize);
      var st := Exec(before, elements, elemSize).value;
      UniqueStep(st, last);
      SizedStep(st, last);
      CountedStep(st, last, elements);
    }
  }

  // ----- results

  /** After any run no memory is queued twice, queued and held, or held by two invocations, and none of it
      was deleted. */
  lemma NoBufferShared(acts: seq<Action>, elements: nat, elemSize: nat, st: State)
    requires elemSize > 0 && Exec(acts, elements, elemSize) == Some(st)
    ensures forall v, w, x: nat :: Owns(st, v, x) && Owns(st, w, x) ==> v == w
    ensures forall w, x: nat :: Owns(st, w, x) ==> x !in st.freed
  {
    RunInv(acts, elements, elemSize);
  }

  /** The number of buffers queued or held by an invocation with a payload is what the session started with,
      plus one for each completed invocation without a payload, less one for each null buffer that was
      popped and refused. */
  lemma BufferCount(acts: seq<Action>, elements: nat, elemSize: nat, st: State)
    requires elemSize > 0 && Exec(acts, elements, elemSize) == Some(st)
    ensures |st.queue| + |set i | i in st.held && st.held[i].val.Some?| == elements + st.finishedEmpty - st.lost
  {
    RunInv(acts, elements, elemSize);
    assert Holders(st.held) == set i | i in st.held && st.held[i].val.Some?;
  }

  /** No memory leaks: whatever was allocated is queued, held by an invocation, or was deleted. */
  ghost predicate Accounted(st: State) {
    forall x: nat :: x < st.next ==> x in st.freed || exists w :: Owns(st, w, x)
  }

  /** Where the owner of an address is after the action, unless the address is deleted. */
  function After(st: State, a: Action, w: Owner): (r: Owner)
    requires Enabled(st, a)
  {
    match a
    case Receive(i, size) =>
      if size == 0 || st.queue == [] then w
      else if w == Queued(0) then HeldBy(i)
      else if w.Queued? then Queued(w.k - 1)
      else w
    case Complete(i) => if w == HeldBy(i) then Queued(|st.queue|) else w
  }

  lemma OwnerAfter(st: State, a: Action, w: Owner, x: nat)
    requires Sized(st) && Enabled(st, a) && Owns(st, w, x)
    ensures x in Apply(st, a).freed || Owns(Apply(st, a), After(st, a, w), x)
  {
  }

  lemma AccountedStep(st: State, a: Action)
    requires Sized(st) && Accounted(st) && Enabled(st, a)
    ensures Accounted(Apply(st, a))
  {
    var st' := Apply(st, a);
    forall x: nat | x < st'.next ensures x in st'.freed || exists w :: Owns(st', w, x) {
      if x >= st.next {
        assert Owns(st', HeldBy(a.i), x);
      } else if x !in st.freed {
        var w :| Owns(st, w, x);
        OwnerAfter(st, a, w, x);
      }
    }
  }

  lemma InitAccounted(st: State)
    requires |st.queue| == st.next && forall k: nat :: k < |st.queue| ==> st.queue[k].val == Some(k)
    ensures Accounted(st)
  {
    forall x: nat | x < st.next ensures x in st.freed || exists w :: Owns(st, w, x) {
      assert Owns(st, Queued(x), x);
    }
  }

  lemma {:induction false} RunAccounted(acts: seq<Action>, elements: nat, elemSize: nat)
    requires elemSize > 0 && Exec(acts, elements, elemSize).Some?
    ensures Accounted(Exec(acts, elements, elemSize).value)
  {
    if acts == [] {
      InitAccounted(Init(elements, elemSize));
    } else {
      var before := acts[..|acts| - 1];
      RunAccounted(before, elements, elemSize);
      RunInv(before, elements, elemSize);
      AccountedStep(Exec(before, elements, elemSize).value, acts[|acts| - 1]);
    }
  }

  /** After any run: memory that was handed out has exactly one owner, or was deleted, and not both. */
  lemma NothingLeaks(acts: seq<Action>, elements: nat, elemSize: nat, st: State, x: nat)
    requires elemSize > 0 && Exec(acts, elements, elemSize) == Some(st) && x < st.next
    ensures x in st.freed <==> !exists w :: Owns(st, w, x)
  {
    RunAccounted(acts, elements, elemSize);
    RunInv(acts, elements, elemSize);
  }
}
