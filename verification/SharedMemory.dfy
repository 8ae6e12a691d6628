/** Ownership of shared memory segments (runtime/lib/session.cpp): moves hand a segment over, the destructor
    unmaps and unlinks it, and a move assignment forgets what its target held. */
module SharedMemory {
  import opened Bytes
  import opened Tables

  /** The fields of a SharedMemory object; `ptr` names the segment that create or open mapped. */
  datatype Handle = Handle(size: int32, fd: int, path: Text, ptr: Option<nat>, owned: bool)

  const EMPTY := Handle(-1, -1, [], None, false)

  /** What the operating system was asked for: the mappings that were unmapped and the paths that were unlinked. */
  class Kernel {
    var unmapped: multiset<nat>
    var unlinked: multiset<Text>

    constructor ()
      ensures unmapped == multiset{} && unlinked == multiset{}
    {
      unmapped, unlinked := multiset{}, multiset{};
    }
  }

  /** The path that the destructor would unlink. */
  function OwnedPath(h: Handle): (path: Option<Text>) { if h.owned && h.fd != -1 then Some(h.path) else None }

  function Single<K>(k: Option<K>): (m: multiset<K>) { if k.Some? then multiset{k.value} else multiset{} }

  function Unmaps(h: Handle): (m: multiset<nat>) { Single(h.ptr) }

  function Unlinks(h: Handle): (m: multiset<Text>) { Single(OwnedPath(h)) }

  class Segment {
    var size: int32
    var fd: int
    var path: Text
    var ptr: Option<nat>
    var owned: bool

    function Fields(): (r: Handle)
      reads this
    {
      Handle(size, fd, path, ptr, owned)
    }

    constructor (h: Handle)
      ensures Fields() == h
    {
      size, fd, path, ptr, owned := h.size, h.fd, h.path, h.ptr, h.owned;
    }

    /** The move constructor. */
    constructor Move(obj: Segment)
      modifies obj
      ensures Fields() == old(obj.Fields()) && obj.Fields() == EMPTY
    {
      size, fd, path, ptr, owned := obj.size, obj.fd, obj.path, obj.ptr, obj.owned;
      new;
      obj.Clear();
    }

    method Clear()
      modifies this
      ensures Fields() == EMPTY
    {
      size, fd, path, ptr, owned := -1, -1, [], None, false;
    }

    /** The move assignment: what this object held before is forgotten, not released. */
    method Assign(obj: Segment)
      modifies this, obj
      ensures Fields() == old(obj.Fields()) && (this != obj ==> obj.Fields() == EMPTY)
    {
      if this != obj {
        size, fd, path, ptr, owned := obj.size, obj.fd, obj.path, obj.ptr, obj.owned;
        obj.Clear();
      }
    }

    method Destroy(kernel: Kernel)
      modifies kernel
      ensures kernel.unmapped == old(kernel.unmapped) + (if ptr.Some? then multiset{ptr.value} else multiset{})
      ensures kernel.unlinked == old(kernel.unlinked) + (if owned && fd != -1 then multiset{path} else multiset{})
      ensures kernel.unmapped == old(kernel.unmapped) + Unmaps(Fields())
      ensures kernel.unlinked == old(kernel.unlinked) + Unlinks(Fields())
    {
      if ptr.Some? {
        kernel.unmapped := kernel.unmapped + multiset{ptr.value};
      }
      if owned && fd != -1 {
        kernel.unlinked := kernel.unlinked + multiset{path};
      }
    }
  }

  /** The vector of a process's sessions, as far as their memory is concerned. */
  class SegmentVector {
    var items: seq<Segment>

    ghost predicate Valid()
      reads this
    {
      NoDup(items)
    }

    ghost function Handles(): (hs: seq<Handle>)
      reads this, items
      ensures |hs| == |items|
    {
      seq(|items|, k requires 0 <= k < |items| reads this, items => items[k].Fields())
    }

    constructor ()
      ensures Valid() && Handles() == []
    {
      items := [];
    }

    /** Growth: every element is moved to new storage, and the emptied ones are destroyed. */
    method Grow(kernel: Kernel)
      requires Valid()
      modifies this, items, kernel
      ensures Valid() && Handles() == old(Handles()) && fresh(items)
      ensures kernel.unmapped == old(kernel.unmapped) && kernel.unlinked == old(kernel.unlinked)
    {
      var moved: seq<Segment> := [];
      while |moved| < |items|
        invariant |moved| <= |items| && items == old(items) && fresh(moved) && NoDup(moved)
        invariant forall k :: 0 <= k < |moved| ==>
          moved[k].Fields() == old(items[k].Fields()) && items[k].Fields() == EMPTY
        invariant forall k :: |moved| <= k < |items| ==> items[k].Fields() == old(items[k].Fields())
        invariant kernel.unmapped == old(kernel.unmapped) && kernel.unlinked == old(kernel.unlinked)
        decreases |items| - |moved|
      {
        var segment := new Segment.Move(items[|moved|]);
        moved := moved + [segment];
      }
      var k := 0;
      while k < |items|
        invariant k <= |items| && items == old(items) && fresh(moved) && |moved| == |items|
        invariant forall i :: 0 <= i < |items| ==>
          items[i].Fields() == EMPTY && moved[i].Fields() == old(items[i].Fields())
        invariant kernel.unmapped == old(kernel.unmapped) && kernel.unlinked == old(kernel.unlinked)
      {
        items[k].Destroy(kernel);
        k := k + 1;
      }
      items := moved;
      assert Handles() == old(Handles());
    }

    /** erase: later elements are move-assigned one place down and the last is destroyed. The erased segment is
        released if it was the last; otherwise it is neither unmapped nor unlinked, now or by any later
        destruction of an element. */
    method Erase(k: nat, kernel: Kernel)
      requires Valid() && k < |items|
      modifies this, items, kernel
      ensures Valid() && Handles() == RemoveAt(old(Handles()), k)
      ensures
        var erased := old(Handles())[k];
        var last := k == |old(items)| - 1;
        && kernel.unmapped == old(kernel.unmapped) + (if last then Unmaps(erased) else multiset{})
        && kernel.unlinked == old(kernel.unlinked) + (if last then Unlinks(erased) else multiset{})
    {
      ShiftedEnds(Handles(), k);
      ShiftDown(k);
      DropLast(kernel);
    }

    method ShiftDown(k: nat)
      requires Valid() && k < |items|
      modifies items
      ensures Handles() == Shifted(old(Handles()), k, |items|)
    {
      hide Shifted;
      ghost var before := Handles();
      ShiftedBegins(before, k);
      var j := k + 1;
      while j < |items|
        invariant k < j <= |items|
        invariant Handles() == Shifted(before, k, j)
      {
        ShiftedMore(before, k, j);
        MoveDown(j);
        j := j + 1;
      }
    }

    method MoveDown(j: nat)
      requires Valid() && 0 < j < |items|
      modifies items
      ensures Handles() == old(Handles())[j - 1 := old(Handles())[j]][j := EMPTY]
    {
      ghost var before := Handles();
      items[j - 1].Assign(items[j]);
      assert forall i :: 0 <= i < |items| && i != j && i != j - 1 ==> items[i].Fields() == before[i];
      assert Handles() == before[j - 1 := before[j]][j := EMPTY];
    }

    method DropLast(kernel: Kernel)
      requires Valid() && items != []
      modifies this, kernel
      ensures Valid() && Handles() == old(Handles())[..|old(items)| - 1]
      ensures kernel.unmapped == old(kernel.unmapped) + Unmaps(old(Handles())[|old(items)| - 1])
      ensures kernel.unlinked == old(kernel.unlinked) + Unlinks(old(Handles())[|old(items)| - 1])
    {
      ghost var before := Handles();
      items[|items| - 1].Destroy(kernel);
      items := items[..|items| - 1];
      assert Handles() == before[..|items|];
    }
  }

  /** A vector in the middle of erase: elements up to j have moved down from place k on. */
  function Shifted(before: seq<Handle>, k: nat, j: nat): (r: seq<Handle>)
    requires k < j <= |before|
  {
    before[..k] + before[k + 1..j] + [if j == k + 1 then before[k] else EMPTY] + before[j..]
  }

  lemma ShiftedBegins(before: seq<Handle>, k: nat)
    requires k < |before|
    ensures Shifted(before, k, k + 1) == before
  {
  }

  lemma ShiftedMore(before: seq<Handle>, k: nat, j: nat)
    requires k < j < |before|
    ensures Shifted(before, k, j + 1) == Shifted(before, k, j)[j - 1 := Shifted(before, k, j)[j]][j := EMPTY]
  {
  }

  lemma ShiftedEnds(before: seq<Handle>, k: nat)
    requires k < |before|
    ensures
      var shifted := Shifted(before, k, |before|);
      && shifted[..|before| - 1] == RemoveAt(before, k)
      && shifted[|before| - 1] == if k == |before| - 1 then before[k] else EMPTY
  {
  }

  // ----- any sequence of operations on any objects

  /** What became of everything that was made: it was released by a destructor, or lost, or some object has it. */
  datatype Ledger<!K> = Ledger(made: multiset<K>, released: multiset<K>, lost: multiset<K>)

  /** `origin` has each mapping's handle as create or open returned it; `names` are the paths that exist. */
  datatype State = State(objects: map<nat, Handle>, origin: map<nat, Handle>, mappings: Ledger<nat>,
                         links: Ledger<Text>, names: set<Text>)

  const INIT := State(map[], map[], Ledger(multiset{}, multiset{}, multiset{}),
                      Ledger(multiset{}, multiset{}, multiset{}), {})

  /** Where create gives up. */
  datatype Failure = AtOpen | AtResizeOrMap | AtSwapIn

  datatype Action =
    | Create(o: nat, path: Text, fd: nat, size: int32, ptr: nat)
    | CreateFails(path: Text, failure: Failure, ptr: nat)
    | Open(o: nat, path: Text, fd: nat, size: int32, ptr: nat)
    | Default(o: nat)
    | MoveConstruct(from: nat, to: nat)
    | MoveAssign(from: nat, to: nat)
    | Destroy(o: nat)

  /** The handle that create or open returns. */
  function HandleOf(a: Action): (h: Handle)
    requires a.Create? || a.Open?
  {
    Handle(a.size, a.fd, a.path, Some(a.ptr), a.Create?)
  }

  /** Mappings get new identities; open needs the path to exist. */
  predicate Enabled(st: State, a: Action) {
    match a
    case Create(o, _, _, _, x) => o !in st.objects && x !in st.mappings.made
    case CreateFails(_, _, x) => x !in st.mappings.made
    case Open(o, path, _, _, x) => o !in st.objects && x !in st.mappings.made && path in st.names
    case Default(o) => o !in st.objects
    case MoveConstruct(from, to) => from in st.objects && to !in st.objects
    case MoveAssign(from, to) => from in st.objects && to in st.objects
    case Destroy(o) => o in st.objects
  }

  function Made<K>(l: Ledger<K>, k: Option<K>): (l': Ledger<K>) { l.(made := l.made + Single(k)) }

  function Released<K>(l: Ledger<K>, k: Option<K>): (l': Ledger<K>) { l.(released := l.released + Single(k)) }

  function Lost<K>(l: Ledger<K>, k: Option<K>): (l': Ledger<K>) { l.(lost := l.lost + Single(k)) }

  function Moved(objects: map<nat, Handle>, from: nat, to: nat): (after: map<nat, Handle>)
    requires from in objects
  {
    objects[to := objects[from]][from := EMPTY]
  }

  function Apply(st: State, a: Action): (st': State)
    requires Enabled(st, a)
  {
    match a
    case Create(o, path, _, _, x) =>
      State(st.objects[o := HandleOf(a)], st.origin[x := HandleOf(a)], Made(st.mappings, Some(x)),
            Made(st.links, Some(path)), st.names + {path})
    case Open(o, _, _, _, x) =>
      st.(objects := st.objects[o := HandleOf(a)], origin := st.origin[x := HandleOf(a)],
          mappings := Made(st.mappings, Some(x)))
    case CreateFails(path, AtOpen, _) => st
    case CreateFails(path, AtResizeOrMap, _) =>
      st.(links := Lost(Made(st.links, Some(path)), Some(path)), names := st.names + {path})
    case CreateFails(path, AtSwapIn, x) =>
      st.(mappings := Released(Made(st.mappings, Some(x)), Some(x)),
          links := Released(Made(st.links, Some(path)), Some(path)), names := st.names - {path})
    case Default(o) => st.(objects := st.objects[o := EMPTY])
    case MoveConstruct(from, to) => st.(objects := Moved(st.objects, from, to))
    case MoveAssign(from, to) =>
      if from == to then st
      else
        var target := st.objects[to];
        st.(objects := Moved(st.objects, from, to), mappings := Lost(st.mappings, target.ptr),
            links := Lost(st.links, OwnedPath(target)))
    case Destroy(o) =>
      var h := st.objects[o];
      st.(objects := st.objects - {o}, mappings := Released(st.mappings, h.ptr),
          links := Released(st.links, OwnedPath(h)),
          names := if OwnedPath(h).Some? then st.names - {h.path} else st.names)
  }

  function Exec(acts: seq<Action>): (st: Option<State>) {
    if acts == [] then Some(INIT)
    else
      match Exec(acts[..|acts| - 1])
      case None => None
      case Some(st) => if Enabled(st, acts[|acts| - 1]) then Some(Apply(st, acts[|acts| - 1])) else None
  }

  predicate Holds(st: State, o: nat, x: nat) { o in st.objects && st.objects[o].ptr == Some(x) }

  predicate Owns(st: State, o: nat, path: Text) { o in st.objects && OwnedPath(st.objects[o]) == Some(path) }

  /** The objects that have k, by whatever `key` looks at. */
  ghost function Keepers<K>(objects: map<nat, Handle>, key: Handle -> Option<K>, k: K): (os: set<nat>) {
    set o | o in objects && key(objects[o]) == Some(k)
  }

  ghost predicate Balanced<K(!new)>(l: Ledger<K>, objects: map<nat, Handle>, key: Handle -> Option<K>) {
    forall k :: l.made[k] == |Keepers(objects, key, k)| + l.released[k] + l.lost[k]
  }

  // ----- the balance, for any key that an empty handle does not have

  lemma Count<K>(objects: map<nat, Handle>, key: Handle -> Option<K>, o: nat, k: K)
    requires o in objects
    ensures |Keepers(objects, key, k)| == |Keepers(objects - {o}, key, k)| + Single(key(objects[o]))[k]
  {
    var rest := Keepers(objects - {o}, key, k);
    assert Keepers(objects, key, k) == if key(objects[o]) == Some(k) then rest + {o} else rest;
  }

  lemma AddKeeps<K(!new)>(l: Ledger<K>, objects: map<nat, Handle>, key: Handle -> Option<K>, o: nat, h: Handle)
    requires Balanced(l, objects, key) && o !in objects
    ensures Balanced(Made(l, key(h)), objects[o := h], key)
  {
    assert objects[o := h] - {o} == objects;
    hide Keepers, Single;
    forall k ensures Made(l, key(h)).made[k] == |Keepers(objects[o := h], key, k)| + l.released[k] + l.lost[k] {
      Count(objects[o := h], key, o, k);
    }
  }

  lemma DestroyKeeps<K(!new)>(l: Ledger<K>, objects: map<nat, Handle>, key: Handle -> Option<K>, o: nat)
    requires Balanced(l, objects, key) && o in objects
    ensures Balanced(Released(l, key(objects[o])), objects - {o}, key)
  {
    hide Keepers, Single;
    var l' := Released(l, key(objects[o]));
    forall k ensures l'.made[k] == |Keepers(objects - {o}, key, k)| + l'.released[k] + l'.lost[k] {
      Count(objects, key, o, k);
    }
  }

  /** The target's own k is lost. */
  lemma MoveKeeps<K(!new)>(l: Ledger<K>, objects: map<nat, Handle>, key: Handle -> Option<K>, from: nat, to: nat)
    requires Balanced(l, objects, key) && from in objects && to in objects && from != to && key(EMPTY) == None
    ensures Balanced(Lost(l, key(objects[to])), Moved(objects, from, to), key)
  {
    hide Keepers;
    var l', after := Lost(l, key(objects[to])), Moved(objects, from, to);
    assert objects - {to} - {from} == after - {to} - {from};
    forall k ensures l'.made[k] == |Keepers(after, key, k)| + l'.released[k] + l'.lost[k] {
      Count(objects, key, to, k);
      Count(objects - {to}, key, from, k);
      Count(after, key, to, k);
      Count(after - {to}, key, from, k);
    }
  }

  lemma GoneKeeps<K(!new)>(l: Ledger<K>, l': Ledger<K>, objects: map<nat, Handle>, key: Handle -> Option<K>, k: K)
    requires Balanced(l, objects, key) && GoneWith(l, l', k)
    ensures Balanced(l', objects, key)
  {
    hide Keepers;
  }

  lemma NotMore<K(!new)>(l: Ledger<K>, objects: map<nat, Handle>, key: Handle -> Option<K>)
    requires Balanced(l, objects, key)
    ensures forall k :: l.released[k] <= l.made[k]
  {
    hide Keepers;
  }

  // ----- over any run

  /** An object is empty or as create or open made it; a mapping is made once. */
  ghost predicate OriginOk(st: State) {
    && (forall o :: o in st.objects ==> Original(st.origin, st.objects[o]))
    && (forall x: nat :: st.mappings.made[x] <= 1)
    && (forall x: nat :: x in st.origin ==> x in st.mappings.made)
  }

  predicate Original(origin: map<nat, Handle>, h: Handle) {
    h == EMPTY || (h.ptr.Some? && h.ptr.value in origin && h == origin[h.ptr.value])
  }

  /** A path exists while it was made and never unlinked, and not if it was unlinked as often as made. */
  ghost predicate NamesOk(names: set<Text>, l: Ledger<Text>) {
    && (forall path :: path in names ==> l.released[path] < l.made[path])
    && (forall path :: path in l.made && path !in l.released ==> path in names)
  }

  function Ptr(h: Handle): (x: Option<nat>) { h.ptr }

  ghost predicate Inv(st: State) {
    && Balanced(st.mappings, st.objects, Ptr) && Balanced(st.links, st.objects, OwnedPath)
    && OriginOk(st) && NamesOk(st.names, st.links)
  }

  /** What an action does to a ledger, by the key that the ledger is about. */
  ghost predicate Booked<K(!new)>(st: State, a: Action, key: Handle -> Option<K>, l: Ledger<K>, l': Ledger<K>)
    requires Enabled(st, a)
  {
    match a
    case Create(_, _, _, _, _) => l' == Made(l, key(HandleOf(a)))
    case Open(_, _, _, _, _) => l' == Made(l, key(HandleOf(a)))
    case CreateFails(_, _, _) => l' == l || exists k :: GoneWith(l, l', k)
    case Default(_) => l' == l
    case MoveConstruct(_, _) => l' == l
    case MoveAssign(from, to) => l' == if from == to then l else Lost(l, key(st.objects[to]))
    case Destroy(o) => l' == Released(l, key(st.objects[o]))
  }

  ghost predicate GoneWith<K>(l: Ledger<K>, l': Ledger<K>, k: K) {
    l' == Lost(Made(l, Some(k)), Some(k)) || l' == Released(Made(l, Some(k)), Some(k))
  }

  lemma NothingBooked<K>(l: Ledger<K>)
    ensures Made(l, None) == l && Lost(l, None) == l
  {
  }

  lemma MovedKeeps<K(!new)>(st: State, key: Handle -> Option<K>, l: Ledger<K>, from: nat, to: nat)
    requires Balanced(l, st.objects, key) && from in st.objects && to !in st.objects && key(EMPTY) == None
    ensures Balanced(l, Moved(st.objects, from, to), key)
  {
    hide Balanced, Made, Lost;
    var objects := st.objects[to := EMPTY];
    NothingBooked(l);
    AddKeeps(l, st.objects, key, to, EMPTY);
    MoveKeeps(l, objects, key, from, to);
    assert Moved(objects, from, to) == Moved(st.objects, from, to);
  }

  lemma BalanceStep<K(!new)>(st: State, a: Action, key: Handle -> Option<K>, l: Ledger<K>, l': Ledger<K>)
    requires Enabled(st, a) && Balanced(l, st.objects, key) && Booked(st, a, key, l, l') && key(EMPTY) == None
    ensures Balanced(l', Apply(st, a).objects, key)
  {
    hide Balanced, Made, Lost, Released, GoneWith, OwnedPath, Moved;
    match a {
      case Create(o, _, _, _, _) => AddKeeps(l, st.objects, key, o, HandleOf(a));
      case Open(o, _, _, _, _) => AddKeeps(l, st.objects, key, o, HandleOf(a));
      case CreateFails(_, _, _) =>
        if l' != l {
          var k :| GoneWith(l, l', k);
          GoneKeeps(l, l', st.objects, key, k);
        }
      case Default(o) =>
        NothingBooked(l);
        AddKeeps(l, st.objects, key, o, EMPTY);
      case MoveConstruct(from, to) => MovedKeeps(st, key, l, from, to);
      case MoveAssign(from, to) =>
        if from != to {
          MoveKeeps(l, st.objects, key, from, to);
        }
      case Destroy(o) => DestroyKeeps(l, st.objects, key, o);
    }
  }

  lemma MappingsBooked(st: State, a: Action)
    requires Enabled(st, a)
    ensures Booked(st, a, Ptr, st.mappings, Apply(st, a).mappings)
  {
    hide Single;
    if a.CreateFails? {
      assert a.failure.AtSwapIn? ==> GoneWith(st.mappings, Apply(st, a).mappings, a.ptr);
    }
  }

  lemma LinksBooked(st: State, a: Action)
    requires Enabled(st, a)
    ensures Booked(st, a, OwnedPath, st.links, Apply(st, a).links)
  {
    if a.CreateFails? {
      assert !a.failure.AtOpen? ==> GoneWith(st.links, Apply(st, a).links, a.path);
    }
  }

  lemma OriginStep(st: State, a: Action)
    requires OriginOk(st) && Enabled(st, a)
    ensures OriginOk(Apply(st, a))
  {
    hide OwnedPath, Enabled, Apply, Original;
    MadeStep(st, a);
    ObjectsStep(st, a);
  }

  /** A mapping that is made is a new one. */
  lemma MadeStep(st: State, a: Action)
    requires OriginOk(st) && Enabled(st, a)
    ensures forall x: nat :: Apply(st, a).mappings.made[x] <= 1
    ensures forall x: nat :: x in Apply(st, a).origin ==> x in Apply(st, a).mappings.made
  {
    hide OwnedPath, Original, Moved;
  }

  lemma ObjectsStep(st: State, a: Action)
    requires OriginOk(st) && Enabled(st, a)
    ensures forall o :: o in Apply(st, a).objects ==> Original(Apply(st, a).origin, Apply(st, a).objects[o])
  {
    hide OwnedPath, Made, Lost, Released;
    if a.Create? || a.Open? {
      forall o | o in st.objects ensures Original(st.origin[a.ptr := HandleOf(a)], st.objects[o]) {
        assert Original(st.origin, st.objects[o]);
      }
    } else {
      hide Original;
      assert Original(st.origin, EMPTY) by {
        EmptyOriginal(st.origin);
      }
    }
  }

  lemma EmptyOriginal(origin: map<nat, Handle>)
    ensures Original(origin, EMPTY)
  {
  }

  lemma NamesStep(st: State, a: Action)
    requires NamesOk(st.names, st.links) && (forall k :: st.links.released[k] <= st.links.made[k]) && Enabled(st, a)
    ensures NamesOk(Apply(st, a).names, Apply(st, a).links)
  {
  }

  lemma InvStep(st: State, a: Action)
    requires Inv(st) && Enabled(st, a)
    ensures Inv(Apply(st, a))
  {
    hide Balanced, Booked, OriginOk, NamesOk, Apply, Enabled;
    MappingsBooked(st, a);
    LinksBooked(st, a);
    BalanceStep(st, a, Ptr, st.mappings, Apply(st, a).mappings);
    BalanceStep(st, a, OwnedPath, st.links, Apply(st, a).links);
    OriginStep(st, a);
    NotMore(st.links, st.objects, OwnedPath);
    NamesStep(st, a);
  }

  lemma {:induction false} RunInv(acts: seq<Action>)
    requires Exec(acts).Some?
    ensures Inv(Exec(acts).value)
  {
    hide Inv, Enabled, Apply;
    if acts != [] {
      RunInv(acts[..|acts| - 1]);
      InvStep(Exec(acts[..|acts| - 1]).value, acts[|acts| - 1]);
    } else {
      InitOk();
    }
  }

  lemma InitOk()
    ensures Inv(INIT)
  {
  }

  /** The operations of Segment are those of the transition system: a destructor releases in the ledgers what it has
      unmapped and unlinked, a move assignment loses what its target held, and the target then has the source's
      fields. */
  lemma DestructorBooks(st: State, o: nat)
    requires o in st.objects
    ensures
      var (h, st') := (st.objects[o], Apply(st, Destroy(o)));
      && st'.objects == st.objects - {o}
      && st'.mappings.released == st.mappings.released + Unmaps(h)
      && st'.links.released == st.links.released + Unlinks(h)
      && st'.mappings.made == st.mappings.made && st'.mappings.lost == st.mappings.lost
      && st'.links.made == st.links.made && st'.links.lost == st.links.lost
  {
  }

  lemma MoveBooks(st: State, from: nat, to: nat)
    requires from in st.objects && to in st.objects && from != to
    ensures
      var st' := Apply(st, MoveAssign(from, to));
      && st'.objects == st.objects[to := st.objects[from]][from := EMPTY]
      && st'.mappings.lost == st.mappings.lost + Unmaps(st.objects[to])
      && st'.links.lost == st.links.lost + Unlinks(st.objects[to])
      && st'.mappings.released == st.mappings.released && st'.links.released == st.links.released
  {
  }

  /** What was made at most once is in at most one place. */
  lemma OnePlace<K(!new)>(l: Ledger<K>, objects: map<nat, Handle>, key: Handle -> Option<K>, k: K)
    requires Balanced(l, objects, key) && l.made[k] <= 1
    ensures forall o, p :: o in Keepers(objects, key, k) && p in Keepers(objects, key, k) ==> o == p
    ensures (if Keepers(objects, key, k) != {} then 1 else 0) + l.released[k] + l.lost[k] == l.made[k]
  {
    hide Keepers;
    var os := Keepers(objects, key, k);
    assert |os| <= 1;
    forall o, p | o in os && p in os ensures o == p {
      assert |os - {o}| == 0;
      assert p !in os - {o};
    }
  }

  lemma HoldsKeepers(st: State, x: nat)
    ensures forall o :: Holds(st, o, x) <==> o in Keepers(st.objects, Ptr, x)
    ensures (exists o :: Holds(st, o, x)) <==> Keepers(st.objects, Ptr, x) != {}
  {
    assert forall o :: Holds(st, o, x) <==> o in Keepers(st.objects, Ptr, x);
    hide Keepers, Holds;
    if Keepers(st.objects, Ptr, x) != {} {
      var o :| o in Keepers(st.objects, Ptr, x);
    }
  }

  lemma OwnsKeepers(st: State, path: Text)
    ensures forall o :: Owns(st, o, path) <==> o in Keepers(st.objects, OwnedPath, path)
    ensures (exists o :: Owns(st, o, path)) <==> Keepers(st.objects, OwnedPath, path) != {}
  {
    assert forall o :: Owns(st, o, path) <==> o in Keepers(st.objects, OwnedPath, path);
    hide Keepers, Owns;
    if Keepers(st.objects, OwnedPath, path) != {} {
      var o :| o in Keepers(st.objects, OwnedPath, path);
    }
  }

  /** After any sequence of operations a mapping that was made is in exactly one place, once: with one object,
      unmapped, or forgotten by a move assignment. */
  lemma UniqueOwnership(acts: seq<Action>, st: State, x: nat)
    requires Exec(acts) == Some(st)
    ensures forall o, p :: Holds(st, o, x) && Holds(st, p, x) ==> o == p
    ensures
      (if exists o :: Holds(st, o, x) then 1 else 0) + st.mappings.released[x] + st.mappings.lost[x]
      == if x in st.mappings.made then 1 else 0
  {
    hide Exec, OriginOk, NamesOk, Keepers, Holds, Balanced;
    RunInv(acts);
    MadeOnce(st, x);
    OnePlace(st.mappings, st.objects, Ptr, x);
    HoldsKeepers(st, x);
  }

  lemma MadeOnce(st: State, x: nat)
    requires OriginOk(st)
    ensures st.mappings.made[x] <= 1
  {
  }

  /** For every path: create calls that made it are objects that will unlink it, unlinks, and names that were
      forgotten by a move assignment or a failed create. So nothing is unlinked more often than it was created. */
  lemma PathsAccounted(acts: seq<Action>, st: State, path: Text)
    requires Exec(acts) == Some(st)
    ensures st.links.made[path]
      == |set o | o in st.objects && Owns(st, o, path)| + st.links.released[path] + st.links.lost[path]
  {
    hide Exec, OriginOk, NamesOk, Owns;
    RunInv(acts);
    OwnsKeepers(st, path);
    assert (set o | o in st.objects && Owns(st, o, path)) == Keepers(st.objects, OwnedPath, path);
  }

  /** A path that was created once exists exactly as long as an object owns it, and for good if it was forgotten. */
  lemma LinkedIff(acts: seq<Action>, st: State, path: Text)
    requires Exec(acts) == Some(st) && st.links.made[path] == 1
    ensures path in st.names <==> (exists o :: Owns(st, o, path)) || path in st.links.lost
  {
    hide Exec, OriginOk, Keepers, Owns, Balanced;
    RunInv(acts);
    OnePlace(st.links, st.objects, OwnedPath, path);
    OwnsKeepers(st, path);
  }

  /** Whatever was moved where, an object is empty or has all the fields that create or open gave its mapping: what
      it unmaps and the path that it unlinks belong together. */
  lemma HandlesIntact(acts: seq<Action>, st: State, o: nat)
    requires Exec(acts) == Some(st) && o in st.objects
    ensures Original(st.origin, st.objects[o])
  {
    RunInv(acts);
    hide Exec, Balanced, NamesOk;
  }
}
