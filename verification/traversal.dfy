/**
 The reachable-folder traversal and its recovery units, over an arbitrary and possibly cyclic graph of
 folders whose every native read may fail.
 */
module Traversal {
  import opened Wrappers

  const MAX_FOLDER_DEPTH: nat := 64
  const FOLDER_LIMIT: nat := 1_000_000
  const MAX_MESSAGES: nat := 100_000_000

  // Folder addresses: fixed arrays of child indices and a depth.

  datatype FolderAddress = FolderAddress(head: seq<nat>, tail: seq<nat>, depth: nat) {
    /** Both halves are full length and every index past the depth is zero. */
    ghost predicate Valid() {
      && |head| == |tail| == 32 && depth <= MAX_FOLDER_DEPTH
      && forall i :: depth <= i < 64 ==> (head + tail)[i] == 0
    }

    ghost function Path(): seq<nat>
      requires Valid()
    {
      (head + tail)[..depth]
    }

    static function Root(): (r: FolderAddress)
      ensures r.Valid() && r.Path() == []
    {
      FolderAddress(seq(32, _ => 0), seq(32, _ => 0), 0)
    }

    function Child(index: nat): (r: Option<FolderAddress>)
      requires Valid()
      ensures r.None? <==> depth == |head| + |tail|
      ensures r.Some? ==> r.value.Valid() && r.value.Path() == Path() + [index]
    {
      if depth >= MAX_FOLDER_DEPTH then None
      else
        var child := if depth < 32 then FolderAddress(head[depth := index], tail, depth + 1)
                     else FolderAddress(head, tail[depth - 32 := index], depth + 1);
        assert child.head + child.tail == (head + tail)[depth := index];
        Some(child)
    }

    function Parent(): (r: Option<FolderAddress>)
      requires Valid()
      ensures r.None? <==> depth == 0
      ensures r.Some? ==> r.value.Valid() && Path() != [] && r.value.Path() == Path()[..|Path()| - 1]
    {
      if depth == 0 then None
      else
        var index := depth - 1;
        var parent := if index < 32 then FolderAddress(head[index := 0], tail, index)
                      else FolderAddress(head, tail[index - 32 := 0], index);
        assert parent.head + parent.tail == (head + tail)[index := 0];
        Some(parent)
    }
  }

  /** An address is determined by its path, so distinct children of distinct parents never collide. */
  lemma PathDetermines(a: FolderAddress, b: FolderAddress)
    requires a.Valid() && b.Valid() && a.Path() == b.Path()
    ensures a == b
  {
    var x, y := a.head + a.tail, b.head + b.tail;
    assert a.depth == |a.Path()| == |b.Path()| == b.depth;
    forall i | 0 <= i < 64 ensures x[i] == y[i] {
      if i < a.depth {
        assert x[i] == a.Path()[i] == b.Path()[i] == y[i];
      }
    }
    assert x == y;
    assert a.head == x[..32] && a.tail == x[32..];
    assert b.head == y[..32] && b.tail == y[32..];
  }

  lemma ChildInjective(a: FolderAddress, i: nat, b: FolderAddress, j: nat)
    requires a.Valid() && b.Valid() && a.Child(i).Some? && a.Child(i) == b.Child(j)
    ensures a == b && i == j
  {
    var p, q := a.Path() + [i], b.Path() + [j];
    assert p == q;
    assert p[..|p| - 1] == a.Path() && q[..|q| - 1] == b.Path();
    assert p[|p| - 1] == i && q[|q| - 1] == j;
    PathDetermines(a, b);
  }

  lemma ParentOfChild(a: FolderAddress, i: nat)
    requires a.Valid() && a.Child(i).Some?
    ensures a.Child(i).value.Parent() == Some(a)
  {
    var child := a.Child(i).value;
    assert child.Path()[..|child.Path()| - 1] == a.Path();
    PathDetermines(child.Parent().value, a);
  }

  lemma ChildOfParent(a: FolderAddress)
    requires a.Valid() && a.Parent().Some?
    ensures a.Parent().value.Child(a.Path()[|a.Path()| - 1]) == Some(a)
  {
    var path := a.Path();
    var rebuilt := a.Parent().value.Child(path[|path| - 1]);
    assert path[..|path| - 1] + [path[|path| - 1]] == path;
    PathDetermines(rebuilt.value, a);
  }

  type Address = a: FolderAddress | a.Valid() ghost witness FolderAddress.Root()

  datatype RecoveryUnit =
    | FolderUnit(address: Address)
    | ChildFolderUnit(address: Address)
    | Normal(folder: Address, folderId: nat, messageIndex: nat)
    | Associated(folder: Address, folderId: nat, messageIndex: nat)

  datatype Event = UnitStart(unit: RecoveryUnit) | UnitEnd(unit: RecoveryUnit) | OtherEvent

  // What a well-formed event sequence is.

  /** The units started, in order. */
  function Starts(events: seq<Event>): seq<RecoveryUnit> {
    if events == [] then []
    else
      var last := events[|events| - 1];
      Starts(events[..|events| - 1]) + (if last.UnitStart? then [last.unit] else [])
  }

  datatype Nesting = Idle | Inside(unit: RecoveryUnit) | Broken

  /** Units never nest and end as they started. */
  function Nest(events: seq<Event>): Nesting {
    if events == [] then Idle
    else
      var before := Nest(events[..|events| - 1]);
      match events[|events| - 1]
      case UnitStart(u) => if before.Idle? then Inside(u) else Broken
      case UnitEnd(u) => if before == Inside(u) then Idle else Broken
      case OtherEvent => before
  }

  ghost predicate NoRepeats(units: seq<RecoveryUnit>) {
    forall i, j :: 0 <= i < j < |units| ==> units[i] != units[j]
  }

  lemma EventAppended(events: seq<Event>, e: Event)
    ensures Starts(events + [e]) == if e.UnitStart? then Starts(events) + [e.unit] else Starts(events)
    ensures Nest(events + [e]) ==
      match e
      case UnitStart(u) => (if Nest(events).Idle? then Inside(u) else Broken)
      case UnitEnd(u) => (if Nest(events) == Inside(u) then Idle else Broken)
      case OtherEvent => Nest(events)
  {
    assert (events + [e])[..|events|] == events;
  }

  lemma OneMoreUnit(units: seq<RecoveryUnit>, u: RecoveryUnit)
    requires NoRepeats(units) && u !in units
    ensures NoRepeats(units + [u]) && (set v | v in units + [u]) == (set v | v in units) + {u}
  {}

  /** Whether the sink takes the last of these events, having taken the others. */
  type Sink = seq<Event> -> bool

  /** What ends a traversal before its time. */
  datatype Failure =
    | SinkRefused
    | RootUnreadable
    | TooManyFolders
    | TooManyItems
    | ChildIndexTooLarge
    | ContentLimit

  /** The sink does not take some event after these. */
  ghost predicate Refuses(accepts: Sink, events: seq<Event>) {
    exists e :: !accepts(events + [e])
  }

  /** Collects the events the sink takes. A refused event ends the traversal. */
  class Recorder {
    const skipped: set<RecoveryUnit>
    const accepts: Sink
    var events: seq<Event>
    ghost var started: set<RecoveryUnit>

    ghost predicate Valid()
      reads this
    {
      && !Nest(events).Broken?
      && started == (set u | u in Starts(events))
      && NoRepeats(Starts(events))
      && started !! skipped
    }

    constructor (skip: set<RecoveryUnit>, sink: Sink)
      ensures Valid() && skipped == skip && accepts == sink && events == [] && started == {}
    {
      skipped, accepts, events, started := skip, sink, [], {};
    }

    method Start(u: RecoveryUnit) returns (r: Result<(), Failure>)
      requires Valid() && Nest(events).Idle? && u !in started && u !in skipped
      modifies this
      ensures Valid()
      ensures r.Ok? ==> Nest(events) == Inside(u) && started == old(started) + {u}
      ensures r.Err? ==> r.error == SinkRefused && Refuses(accepts, events)
      ensures r.Err? ==> events == old(events) && started == old(started)
    {
      if !accepts(events + [UnitStart(u)]) {
        return Err(SinkRefused);
      }
      EventAppended(events, UnitStart(u));
      OneMoreUnit(Starts(events), u);
      events := events + [UnitStart(u)];
      started := started + {u};
      return Ok(());
    }

    method End(u: RecoveryUnit) returns (r: Result<(), Failure>)
      requires Valid() && Nest(events) == Inside(u)
      modifies this
      ensures Valid() && started == old(started)
      ensures r.Ok? ==> Nest(events).Idle?
      ensures r.Err? ==> r.error == SinkRefused && Refuses(accepts, events)
    {
      if !accepts(events + [UnitEnd(u)]) {
        return Err(SinkRefused);
      }
      EventAppended(events, UnitEnd(u));
      events := events + [UnitEnd(u)];
      return Ok(());
    }

    /**
     Folder metadata, properties, or the events of a message and everything embedded in it, up to a limit of
     the catalog if there is one in the way.
     */
    method Others(limited: bool) returns (r: Result<(), Failure>)
      requires Valid()
      modifies this
      ensures Valid() && started == old(started) && Nest(events) == Nest(old(events))
      ensures r.Err? ==> (r.error == SinkRefused && Refuses(accepts, events)) || (r.error == ContentLimit && limited)
      ensures r.Ok? ==> !limited
    {
      var count: nat :| count >= 0;
      for i := 0 to count
        invariant Valid() && started == old(started) && Nest(events) == Nest(old(events))
      {
        if !accepts(events + [OtherEvent]) {
          return Err(SinkRefused);
        }
        EventAppended(events, OtherEvent);
        events := events + [OtherEvent];
      }
      return if limited then Err(ContentLimit) else Ok(());
    }
  }

  // The traversal.

  /** What native reads of a folder give; any of them may be missing, and children may form cycles. */
  datatype Folder = Folder(
    identifier: Option<nat>, messages: nat, associated: nat, children: nat, child: nat -> Option<nat>)

  type Graph = nat -> Folder

  /** A folder waiting to be visited; only the root's unit is started before it is taken. */
  datatype Pending = Pending(node: nat, address: Address, unitStarted: bool)

  ghost predicate ParentIn(popped: set<Address>, a: Address) {
    a.Parent().Some? && a.Parent().value in popped
  }

  /** Visited folders form a tree under the root. */
  ghost predicate Closed(popped: set<Address>) {
    forall a :: a in popped ==> a == FolderAddress.Root() || ParentIn(popped, a)
  }

  ghost predicate ChildFrom(p: Address, from: nat, a: Address) {
    a.Parent() == Some(p) && a.Path()[|a.Path()| - 1] >= from
  }

  /** Which units may have been started when p is being visited after the folders in `popped`. */
  ghost predicate Explained(popped: set<Address>, p: Address, from: nat, messages: nat, associated: nat, u: RecoveryUnit) {
    match u
    case FolderUnit(a) => a in popped || a == p
    case ChildFolderUnit(a) => ParentIn(popped, a) || ChildFrom(p, from, a)
    case Normal(a, _, k) => a in popped || (a == p && k < messages)
    case Associated(a, _, k) => a in popped || (a == p && k < associated)
  }

  ghost predicate AllExplained(started: set<RecoveryUnit>, popped: set<Address>, p: Address, from: nat, messages: nat, associated: nat) {
    forall u :: u in started ==> Explained(popped, p, from, messages, associated, u)
  }

  ghost predicate WaitsRightly(popped: set<Address>, p: Address, from: nat, e: Pending) {
    && !e.unitStarted && e.address !in popped && e.address != p
    && (ParentIn(popped, e.address) || ChildFrom(p, from, e.address))
  }

  /** The folders still waiting while p is being visited. */
  ghost predicate Waiting(stack: seq<Pending>, popped: set<Address>, p: Address, from: nat) {
    && (forall i :: 0 <= i < |stack| ==> WaitsRightly(popped, p, from, stack[i]))
    && (forall i, j :: 0 <= i < j < |stack| ==> stack[i].address != stack[j].address)
  }

  lemma ChildIsNew(popped: set<Address>, p: Address, index: nat)
    requires Closed(popped) && p !in popped && p.Child(index).Some?
    ensures var c: Address := p.Child(index).value;
      && c !in popped && c != p && c.Parent() == Some(p) && c.Path()[|c.Path()| - 1] == index
      && !ParentIn(popped, c) && !ChildFrom(p, index + 1, c)
  {
    ParentOfChild(p, index);
    var c: Address := p.Child(index).value;
    assert |c.Path()| == |p.Path()| + 1;
    assert |FolderAddress.Root().Path()| == 0;
  }

  // What a traversal should start: the units of every folder it can reach past the skip list.

  /**
   Everything a traversal meets: the folders, the root if it can be read, the skip list, the sink, and the units
   whose contents run into a limit of the catalog.
   */
  datatype World = World(
    graph: Graph, root: Option<nat>, skipped: set<RecoveryUnit>, accepts: Sink, limited: RecoveryUnit -> bool)

  function LastIndex(a: Address): nat
    requires a.Parent().Some?
  {
    if a.depth <= 32 then a.head[a.depth - 1] else a.tail[a.depth - 33]
  }

  lemma LastIndexOfPath(a: Address)
    requires a.Parent().Some?
    ensures LastIndex(a) == a.Path()[|a.Path()| - 1]
  {}

  /** The node queued under an address, if reading and the skip list let the traversal get there. */
  function Node(w: World, a: Address): Option<nat>
    decreases a.depth, 0
  {
    if a.Parent().None? then w.root
    else
      match Entered(w, a.Parent().value)
      case None => None
      case Some(folder) =>
        if LastIndex(a) < folder.children && ChildFolderUnit(a) !in w.skipped then folder.child(LastIndex(a)) else None
  }

  /** The folder whose contents are visited under an address. */
  function Entered(w: World, a: Address): Option<Folder>
    decreases a.depth, 1
  {
    match Node(w, a)
    case None => None
    case Some(node) =>
      if FolderUnit(a) in w.skipped || w.graph(node).identifier.None? then None else Some(w.graph(node))
  }

  predicate Expected(w: World, u: RecoveryUnit) {
    && u !in w.skipped
    && match u
       case FolderUnit(a) => a.Parent().None? || Node(w, a).Some?
       case ChildFolderUnit(a) =>
         && a.Parent().Some? && Entered(w, a.Parent().value).Some?
         && LastIndex(a) < Entered(w, a.Parent().value).value.children
       case Normal(a, id, k) =>
         && Entered(w, a).Some? && Entered(w, a).value.identifier == Some(id) && k < Entered(w, a).value.messages
       case Associated(a, id, k) =>
         && Entered(w, a).Some? && Entered(w, a).value.identifier == Some(id) && k < Entered(w, a).value.associated
  }

  // Why a traversal may end before its time.

  /** A folder whose contents are visited, in a unit that was started. */
  ghost predicate Opened(w: World, started: set<RecoveryUnit>, a: Address) {
    FolderUnit(a) in started && Entered(w, a).Some?
  }

  ghost predicate ManyFolders(w: World, started: set<RecoveryUnit>, folders: set<Address>) {
    |folders| > 1_000_000 && forall a :: a in folders ==> Opened(w, started, a)
  }

  ghost predicate ManyItems(w: World, started: set<RecoveryUnit>, a: Address) {
    && Opened(w, started, a)
    && (Entered(w, a).value.messages > 100_000_000 || Entered(w, a).value.associated > 100_000_000)
  }

  /** A folder with a child whose index does not fit 32 bits. */
  ghost predicate ManyChildren(w: World, started: set<RecoveryUnit>, a: Address) {
    Opened(w, started, a) && Entered(w, a).value.children > 0x1_0000_0000
  }

  /** The contents of the unit run into a limit. */
  ghost predicate HitsLimit(w: World, u: RecoveryUnit) {
    && w.limited(u)
    && match u
       case FolderUnit(a) => Entered(w, a).Some?
       case ChildFolderUnit(_) => false
       case _ => true
  }

  /** The failure has a cause in the world, met in a unit that was started. */
  ghost predicate Caused(w: World, events: seq<Event>, started: set<RecoveryUnit>, failure: Failure) {
    match failure
    case SinkRefused => Refuses(w.accepts, events)
    case RootUnreadable => w.root.None?
    case TooManyFolders => exists folders :: ManyFolders(w, started, folders)
    case TooManyItems => exists a: Address :: ManyItems(w, started, a)
    case ChildIndexTooLarge => exists a: Address :: ManyChildren(w, started, a)
    case ContentLimit => exists u :: u in started && HitsLimit(w, u)
  }

  /** No limit was in the way of these units, but perhaps of the folder p. */
  ghost predicate UnlimitedBut(w: World, started: set<RecoveryUnit>, p: Address) {
    forall u :: u in started ==> u == FolderUnit(p) || !HitsLimit(w, u)
  }

  ghost predicate Unlimited(w: World, started: set<RecoveryUnit>) {
    forall u :: u in started ==> !HitsLimit(w, u)
  }

  /** Apart from the sink, nothing met in these units stands in the way of a traversal. */
  ghost predicate Unhindered(w: World, started: set<RecoveryUnit>) {
    && (w.root.Some? || FolderUnit(FolderAddress.Root()) in w.skipped)
    && (forall folders :: !ManyFolders(w, started, folders))
    && (forall a: Address :: !ManyItems(w, started, a) && !ManyChildren(w, started, a))
    && Unlimited(w, started)
  }

  /** The folder, if it is entered, holds no more than it may. */
  ghost predicate WithinLimits(w: World, a: Address) {
    Entered(w, a).Some? ==>
      var folder := Entered(w, a).value;
      folder.messages <= 100_000_000 && folder.associated <= 100_000_000 && folder.children <= 0x1_0000_0000
  }

  /** The folder during whose visit a unit is started. */
  function OwnerOf(u: RecoveryUnit): Address {
    match u
    case FolderUnit(a) => a
    case ChildFolderUnit(a) => if a.Parent().Some? then a.Parent().value else a
    case Normal(a, _, _) => a
    case Associated(a, _, _) => a
  }

  ghost predicate Truthful(w: World, started: set<RecoveryUnit>) {
    forall u :: u in started ==> Expected(w, u)
  }

  ghost predicate Known(w: World, stack: seq<Pending>) {
    forall i :: 0 <= i < |stack| ==> Node(w, stack[i].address) == Some(stack[i].node)
  }

  ghost predicate OnStack(stack: seq<Pending>, a: Address) {
    exists i :: 0 <= i < |stack| && stack[i].address == a
  }

  /** Every unit of a visited folder was started. */
  ghost predicate Covered(w: World, started: set<RecoveryUnit>, popped: set<Address>) {
    forall u :: Expected(w, u) && OwnerOf(u) in popped ==> u in started
  }

  ghost predicate Near(popped: set<Address>, a: Address) {
    a == FolderAddress.Root() || ParentIn(popped, a)
  }

  /** Every folder found so far was visited or is waiting. */
  ghost predicate Frontier(w: World, stack: seq<Pending>, popped: set<Address>) {
    forall a: Address :: Near(popped, a) && Node(w, a).Some? ==> a in popped || OnStack(stack, a)
  }

  ghost predicate ChildrenSeen(w: World, started: set<RecoveryUnit>, stack: seq<Pending>, p: Address, from: nat) {
    forall a: Address :: ChildFrom(p, from, a) ==>
      && (Expected(w, ChildFolderUnit(a)) ==> ChildFolderUnit(a) in started)
      && (Node(w, a).Some? ==> OnStack(stack, a))
  }

  ghost predicate MessagesSeen(w: World, started: set<RecoveryUnit>, p: Address, id: nat, count: nat) {
    forall k: nat :: k < count && Expected(w, Normal(p, id, k)) ==> Normal(p, id, k) in started
  }

  ghost predicate AssociatedSeen(w: World, started: set<RecoveryUnit>, p: Address, id: nat, count: nat) {
    forall k: nat :: k < count && Expected(w, Associated(p, id, k)) ==> Associated(p, id, k) in started
  }

  /** One child index passed: its unit was started unless skipped, and it waits if it could be read. */
  lemma ChildPassed(w: World, started: set<RecoveryUnit>, started': set<RecoveryUnit>, stack: seq<Pending>,
                    stack': seq<Pending>, p: Address, index: nat)
    requires ChildrenSeen(w, started, stack, p, index + 1) && started <= started' && stack <= stack'
    requires p.Child(index).Some? ==>
      var c: Address := p.Child(index).value;
      && (Expected(w, ChildFolderUnit(c)) ==> ChildFolderUnit(c) in started')
      && (Node(w, c).Some? ==> OnStack(stack', c))
    ensures ChildrenSeen(w, started', stack', p, index)
  {
    forall a: Address | ChildFrom(p, index, a)
      ensures Expected(w, ChildFolderUnit(a)) ==> ChildFolderUnit(a) in started'
      ensures Node(w, a).Some? ==> OnStack(stack', a)
    {
      if a.Path()[|a.Path()| - 1] == index {
        ChildOfParent(a);
      } else {
        assert ChildFrom(p, index + 1, a);
        if OnStack(stack, a) {
          var i :| 0 <= i < |stack| && stack[i].address == a;
          assert stack'[i] == stack[i];
        }
      }
    }
  }

  /** What a child address means once its parent's folder is entered. */
  lemma ChildOf(w: World, p: Address, folder: Folder, index: nat, c: Address)
    requires Entered(w, p) == Some(folder) && index < folder.children && p.Child(index) == Some(c)
    ensures Expected(w, ChildFolderUnit(c)) <==> ChildFolderUnit(c) !in w.skipped
    ensures Node(w, c) == if ChildFolderUnit(c) in w.skipped then None else folder.child(index)
  {
    ParentOfChild(p, index);
    LastIndexOfPath(c);
    assert c.Path() == p.Path() + [index];
  }

  lemma NoChildYet(w: World, p: Address, folder: Folder, started: set<RecoveryUnit>, stack: seq<Pending>)
    requires Entered(w, p) == Some(folder)
    ensures ChildrenSeen(w, started, stack, p, folder.children)
  {
    forall a: Address | ChildFrom(p, folder.children, a)
      ensures !Expected(w, ChildFolderUnit(a)) && Node(w, a).None?
    {
      LastIndexOfPath(a);
    }
  }

  /** The recorder works for this world's sink and skip list. */
  ghost predicate MeetsWorld(w: World, recorder: Recorder) {
    w.skipped == recorder.skipped && w.accepts == recorder.accepts
  }

  /** The children of p from this index on have been passed. */
  ghost predicate Passed(w: World, started: set<RecoveryUnit>, stack: seq<Pending>, popped: set<Address>, p: Address, from: nat) {
    && Truthful(w, started) && Known(w, stack)
    && ChildrenSeen(w, started, stack, p, from)
    && AllExplained(started, popped, p, from, 0, 0)
    && Waiting(stack, popped, p, from)
  }

  /** A child that is too deep or skipped is passed without a trace. */
  lemma PassedOver(w: World, started: set<RecoveryUnit>, stack: seq<Pending>, popped: set<Address>, p: Address,
                   folder: Folder, index: nat)
    requires Passed(w, started, stack, popped, p, index + 1)
    requires Entered(w, p) == Some(folder) && index < folder.children
    requires p.Child(index).Some? ==> ChildFolderUnit(p.Child(index).value) in w.skipped
    ensures Passed(w, started, stack, popped, p, index)
  {
    if p.Child(index).Some? {
      ChildOf(w, p, folder, index, p.Child(index).value);
    }
    ChildPassed(w, started, started, stack, stack, p, index);
  }

  /** A child whose unit is started waits if it could be read. */
  lemma PassedInto(w: World, started: set<RecoveryUnit>, stack: seq<Pending>, popped: set<Address>, p: Address,
                   folder: Folder, index: nat, child: Address)
    requires Passed(w, started, stack, popped, p, index + 1) && Closed(popped) && p !in popped
    requires Entered(w, p) == Some(folder) && index < folder.children
    requires p.Child(index) == Some(child) && ChildFolderUnit(child) !in w.skipped
    ensures ChildFolderUnit(child) !in started
    ensures Passed(w, started + {ChildFolderUnit(child)}, WithChild(stack, folder, index, child), popped, p, index)
  {
    ChildIsNew(popped, p, index);
    ChildOf(w, p, folder, index, child);
    var stack' := WithChild(stack, folder, index, child);
    if folder.child(index).Some? {
      assert stack'[|stack|].address == child;
    }
    ChildPassed(w, started, started + {ChildFolderUnit(child)}, stack, stack', p, index);
  }

  function WithChild(stack: seq<Pending>, folder: Folder, index: nat, child: Address): seq<Pending> {
    match folder.child(index)
    case Some(node) => stack + [Pending(node, child, false)]
    case None => stack
  }

  /** One child of p: a unit of its own around the read that fetches it. */
  method VisitChild(recorder: Recorder, folder: Folder, ghost popped: set<Address>, p: Address, index: nat,
                    stack0: seq<Pending>, ghost w: World)
    returns (r: Result<(), Failure>, stack: seq<Pending>)
    requires index < folder.children && Closed(popped) && p !in popped
    requires MeetsWorld(w, recorder) && Entered(w, p) == Some(folder) && FolderUnit(p) in recorder.started
    requires recorder.Valid() && Nest(recorder.events).Idle?
    requires Passed(w, recorder.started, stack0, popped, p, index + 1)
    modifies recorder
    ensures recorder.Valid() && Truthful(w, recorder.started) && old(recorder.started) <= recorder.started
    ensures r.Err? ==> Caused(w, recorder.events, recorder.started, r.error)
    ensures r.Ok? ==> Nest(recorder.events).Idle? && stack0 <= stack
    ensures r.Ok? ==> Passed(w, recorder.started, stack, popped, p, index)
    ensures r.Ok? ==> index <= 0xFFFF_FFFF
    ensures Unlimited(w, old(recorder.started)) ==> Unlimited(w, recorder.started)
  {
    stack := stack0;
    if index > U32_MAX {
      assert ManyChildren(w, recorder.started, p);
      return Err(ChildIndexTooLarge), stack;
    }
    var address := p.Child(index);
    if address.None? || ChildFolderUnit(address.value) in recorder.skipped {
      PassedOver(w, recorder.started, stack, popped, p, folder, index);
      return Ok(()), stack;
    }
    var child: Address := address.value;
    PassedInto(w, recorder.started, stack, popped, p, folder, index, child);
    r := recorder.Start(ChildFolderUnit(child));
    if r.Err? {
      return;
    }
    stack := WithChild(stack, folder, index, child);
    r := recorder.End(ChildFolderUnit(child));
  }

  /** The children of p, last first. */
  method VisitChildren(recorder: Recorder, folder: Folder, ghost popped: set<Address>, p: Address, stack0: seq<Pending>,
                       ghost w: World)
    returns (r: Result<(), Failure>, stack: seq<Pending>)
    requires MeetsWorld(w, recorder) && Entered(w, p) == Some(folder) && FolderUnit(p) in recorder.started
    requires Truthful(w, recorder.started) && Known(w, stack0)
    requires recorder.Valid() && Nest(recorder.events).Idle?
    requires Closed(popped) && p !in popped
    requires AllExplained(recorder.started, popped, p, folder.children, 0, 0)
    requires Waiting(stack0, popped, p, folder.children)
    modifies recorder
    ensures recorder.Valid() && Truthful(w, recorder.started) && old(recorder.started) <= recorder.started
    ensures r.Err? ==> Caused(w, recorder.events, recorder.started, r.error)
    ensures r.Ok? ==> Nest(recorder.events).Idle? && stack0 <= stack
    ensures r.Ok? ==> Passed(w, recorder.started, stack, popped, p, 0)
    ensures r.Ok? ==> folder.children <= 0x1_0000_0000
    ensures Unlimited(w, old(recorder.started)) ==> Unlimited(w, recorder.started)
  {
    stack := stack0;
    var index: nat := folder.children;
    NoChildYet(w, p, folder, recorder.started, stack);
    while index > 0
      invariant index <= folder.children && stack0 <= stack && old(recorder.started) <= recorder.started
      invariant recorder.Valid() && Nest(recorder.events).Idle?
      invariant Passed(w, recorder.started, stack, popped, p, index)
      invariant index < folder.children ==> folder.children <= 0x1_0000_0000
      invariant Unlimited(w, old(recorder.started)) ==> Unlimited(w, recorder.started)
    {
      index := index - 1;
      r, stack := VisitChild(recorder, folder, popped, p, index, stack, w);
      if r.Err? {
        return;
      }
    }
    r := Ok(());
  }

  /** The messages of p, each in a unit of its own; whatever is embedded in one stays inside its unit. */
  method VisitMessages(recorder: Recorder, ghost popped: set<Address>, p: Address, folderId: nat, count: nat,
                 limited: RecoveryUnit -> bool, ghost w: World)
    returns (r: Result<(), Failure>)
    requires recorder.Valid() && Nest(recorder.events).Idle? && p !in popped
    requires AllExplained(recorder.started, popped, p, 0, 0, 0)
    requires MeetsWorld(w, recorder) && w.limited == limited && Truthful(w, recorder.started)
    requires Entered(w, p).Some? && Entered(w, p).value.identifier == Some(folderId)
    requires count == Entered(w, p).value.messages
    modifies recorder
    ensures recorder.Valid()
    ensures r.Err? ==> Caused(w, recorder.events, recorder.started, r.error)
    ensures r.Ok? ==> Nest(recorder.events).Idle?
    ensures r.Ok? ==> AllExplained(recorder.started, popped, p, 0, count, 0)
    ensures Truthful(w, recorder.started) && old(recorder.started) <= recorder.started
    ensures r.Ok? ==> MessagesSeen(w, recorder.started, p, folderId, count)
    ensures r.Ok? && Unlimited(w, old(recorder.started)) ==> Unlimited(w, recorder.started)
  {
    for index := 0 to count
      invariant Truthful(w, recorder.started) && old(recorder.started) <= recorder.started
      invariant MessagesSeen(w, recorder.started, p, folderId, index)
      invariant Unlimited(w, old(recorder.started)) ==> Unlimited(w, recorder.started)
      invariant recorder.Valid() && Nest(recorder.events).Idle?
      invariant AllExplained(recorder.started, popped, p, 0, index, 0)
    {
      var unit := Normal(p, folderId, index);
      if unit in recorder.skipped {
        continue;
      }
      var _ :- recorder.Start(unit);
      var _ :- recorder.Others(limited(unit));
      var _ :- recorder.End(unit);
    }
    return Ok(());
  }

  method VisitAssociated(recorder: Recorder, ghost popped: set<Address>, p: Address, folderId: nat, ghost messages: nat, count: nat,
                   limited: RecoveryUnit -> bool, ghost w: World)
    returns (r: Result<(), Failure>)
    requires recorder.Valid() && Nest(recorder.events).Idle? && p !in popped
    requires AllExplained(recorder.started, popped, p, 0, messages, 0)
    requires MeetsWorld(w, recorder) && w.limited == limited && Truthful(w, recorder.started)
    requires Entered(w, p).Some? && Entered(w, p).value.identifier == Some(folderId)
    requires count == Entered(w, p).value.associated
    modifies recorder
    ensures recorder.Valid()
    ensures r.Err? ==> Caused(w, recorder.events, recorder.started, r.error)
    ensures r.Ok? ==> Nest(recorder.events).Idle?
    ensures r.Ok? ==> AllExplained(recorder.started, popped, p, 0, messages, count)
    ensures Truthful(w, recorder.started) && old(recorder.started) <= recorder.started
    ensures r.Ok? ==> AssociatedSeen(w, recorder.started, p, folderId, count)
    ensures r.Ok? && Unlimited(w, old(recorder.started)) ==> Unlimited(w, recorder.started)
  {
    for index := 0 to count
      invariant Truthful(w, recorder.started) && old(recorder.started) <= recorder.started
      invariant AssociatedSeen(w, recorder.started, p, folderId, index)
      invariant Unlimited(w, old(recorder.started)) ==> Unlimited(w, recorder.started)
      invariant recorder.Valid() && Nest(recorder.events).Idle?
      invariant AllExplained(recorder.started, popped, p, 0, messages, index)
    {
      var unit := Associated(p, folderId, index);
      if unit in recorder.skipped {
        continue;
      }
      var _ :- recorder.Start(unit);
      var _ :- recorder.Others(limited(unit));
      var _ :- recorder.End(unit);
    }
    return Ok(());
  }

  /** The state between two visits. */
  ghost predicate Done(popped: set<Address>, u: RecoveryUnit) {
    match u
    case FolderUnit(a) => a in popped || (popped == {} && a == FolderAddress.Root())
    case ChildFolderUnit(a) => ParentIn(popped, a)
    case Normal(a, _, _) => a in popped
    case Associated(a, _, _) => a in popped
  }

  ghost predicate Ready(popped: set<Address>, e: Pending) {
    && e.address !in popped
    && if popped == {} then e.address == FolderAddress.Root() && e.unitStarted
       else !e.unitStarted && ParentIn(popped, e.address)
  }

  ghost predicate Between(recorder: Recorder, stack: seq<Pending>, popped: set<Address>)
    reads recorder
  {
    && recorder.Valid() && Closed(popped)
    && (forall u :: u in recorder.started ==> Done(popped, u))
    && (forall i :: 0 <= i < |stack| ==> Ready(popped, stack[i]))
    && (forall i, j :: 0 <= i < j < |stack| ==> stack[i].address != stack[j].address)
    && (popped == {} && stack != [] ==>
         |stack| == 1 && Nest(recorder.events) == Inside(FolderUnit(stack[0].address)))
    && (popped != {} || stack == [] ==> Nest(recorder.events).Idle?)
  }

  datatype Visit = Left | Counted

  /** What is known between two visits about the folders and units met so far. */
  ghost predicate Complete(w: World, started: set<RecoveryUnit>, stack: seq<Pending>, popped: set<Address>) {
    && Truthful(w, started) && Known(w, stack)
    && Covered(w, started, popped) && Frontier(w, stack, popped)
  }

  /** Nothing is expected of a folder that is not entered but its own unit. */
  lemma LeftComplete(w: World, started: set<RecoveryUnit>, started': set<RecoveryUnit>, rest: seq<Pending>, e: Pending,
                     popped: set<Address>)
    requires Complete(w, started, rest + [e], popped) && Entered(w, e.address).None?
    requires started <= started' && Truthful(w, started')
    requires Expected(w, FolderUnit(e.address)) ==> FolderUnit(e.address) in started'
    ensures Complete(w, started', rest, popped + {e.address})
  {
    RestKnown(w, rest, e);
    assert forall a: Address :: a.Parent() == Some(e.address) ==> Node(w, a).None?;
    forall a: Address | Near(popped + {e.address}, a) && Node(w, a).Some?
      ensures a in popped + {e.address} || OnStack(rest, a)
    {
      if a !in popped + {e.address} {
        StillOnStack(rest, e, a);
      }
    }
  }

  lemma RestKnown(w: World, rest: seq<Pending>, e: Pending)
    requires Known(w, rest + [e])
    ensures Known(w, rest) && Node(w, e.address) == Some(e.node)
  {
    assert (rest + [e])[|rest|] == e;
    assert forall i :: 0 <= i < |rest| ==> (rest + [e])[i] == rest[i];
  }

  lemma StillOnStack(rest: seq<Pending>, e: Pending, a: Address)
    requires OnStack(rest + [e], a) && a != e.address
    ensures OnStack(rest, a)
  {
    var i :| 0 <= i < |rest + [e]| && (rest + [e])[i].address == a;
    assert i < |rest| && rest[i].address == a;
  }

  lemma VisitedComplete(w: World, started: set<RecoveryUnit>, started': set<RecoveryUnit>, rest: seq<Pending>, e: Pending,
                        stack: seq<Pending>, popped: set<Address>, folder: Folder)
    requires Complete(w, started, rest + [e], popped) && Entered(w, e.address) == Some(folder) && folder.identifier.Some?
    requires started <= started' && Truthful(w, started') && Known(w, stack) && rest <= stack
    requires Expected(w, FolderUnit(e.address)) ==> FolderUnit(e.address) in started'
    requires ChildrenSeen(w, started', stack, e.address, 0)
    requires MessagesSeen(w, started', e.address, folder.identifier.value, folder.messages)
    requires AssociatedSeen(w, started', e.address, folder.identifier.value, folder.associated)
    ensures Complete(w, started', stack, popped + {e.address})
  {
    var p := e.address;
    forall u | Expected(w, u) && OwnerOf(u) in popped + {p} ensures u in started' {
      if OwnerOf(u) !in popped {
        match u
        case FolderUnit(_) =>
        case ChildFolderUnit(a) => assert ChildFrom(p, 0, a);
        case Normal(_, _, _) =>
        case Associated(_, _, _) =>
      }
    }
    forall a: Address | Near(popped + {p}, a) && Node(w, a).Some? ensures a in popped + {p} || OnStack(stack, a) {
      if a != p {
        if Near(popped, a) {
          if a !in popped {
            StillOnStack(rest, e, a);
            var i :| 0 <= i < |rest| && rest[i].address == a;
            assert stack[i] == rest[i];
          }
        } else {
          assert ChildFrom(p, 0, a);
        }
      }
    }
  }

  /** What holds of a folder when it is taken off the stack. */
  lemma Taken(recorder: Recorder, rest: seq<Pending>, e: Pending, popped: set<Address>, from: nat)
    requires Between(recorder, rest + [e], popped)
    ensures Closed(popped) && e.address !in popped && Near(popped, e.address)
    ensures Waiting(rest, popped, e.address, from)
    ensures AllExplained(recorder.started, popped, e.address, from, 0, 0)
    ensures if e.unitStarted then Nest(recorder.events) == Inside(FolderUnit(e.address))
            else Nest(recorder.events).Idle? && FolderUnit(e.address) !in recorder.started
  {
    var stack := rest + [e];
    assert stack[|rest|] == e && Ready(popped, e);
    forall i | 0 <= i < |rest| ensures WaitsRightly(popped, e.address, from, rest[i]) {
      assert stack[i] == rest[i] && Ready(popped, stack[i]);
    }
    forall i, j | 0 <= i < j < |rest| ensures rest[i].address != rest[j].address {
      assert stack[i] == rest[i] && stack[j] == rest[j];
    }
  }

  /** The visited folders that were entered. */
  ghost function EnteredAmong(w: World, popped: set<Address>): set<Address> {
    set a: Address | a in popped && Entered(w, a).Some?
  }

  lemma FoldersOpened(w: World, started: set<RecoveryUnit>, popped: set<Address>, p: Address)
    requires Covered(w, started, popped) && FolderUnit(p) in started && p !in popped && Entered(w, p).Some?
    requires |EnteredAmong(w, popped)| + 1 > 1_000_000
    ensures Caused(w, [], started, TooManyFolders)
  {
    var folders := EnteredAmong(w, popped) + {p};
    forall a | a in folders ensures Opened(w, started, a) {
      if a != p {
        assert Expected(w, FolderUnit(a)) && OwnerOf(FolderUnit(a)) == a;
      }
    }
    assert ManyFolders(w, started, folders);
  }

  lemma EnteredOneMore(w: World, popped: set<Address>, p: Address)
    requires p !in popped
    ensures |EnteredAmong(w, popped + {p})| == |EnteredAmong(w, popped)| + (if Entered(w, p).Some? then 1 else 0)
  {
    assert EnteredAmong(w, popped + {p}) == EnteredAmong(w, popped) + (if Entered(w, p).Some? then {p} else {});
  }

  /** Visits one folder: its own unit, then what it holds. */
  method VisitFolder(recorder: Recorder, graph: Graph, limited: RecoveryUnit -> bool, e: Pending, rest: seq<Pending>,
                     folders: nat, ghost popped: set<Address>, ghost w: World)
    returns (r: Result<Visit, Failure>, stack: seq<Pending>)
    requires MeetsWorld(w, recorder) && w.graph == graph && w.limited == limited
    requires Complete(w, recorder.started, rest + [e], popped) && folders == |EnteredAmong(w, popped)|
    requires e.unitStarted ==> FolderUnit(e.address) in recorder.started
    requires Between(recorder, rest + [e], popped) && UnlimitedBut(w, recorder.started, e.address)
    modifies recorder
    ensures recorder.Valid() && Truthful(w, recorder.started)
    ensures r.Ok? ==> Unlimited(w, recorder.started) && WithinLimits(w, e.address)
    ensures r.Err? ==> Caused(w, recorder.events, recorder.started, r.error)
    ensures r.Ok? ==> Between(recorder, stack, popped + {e.address})
    ensures r.Ok? ==> Complete(w, recorder.started, stack, popped + {e.address})
    ensures r == Ok(Left) ==> stack == rest
    ensures r == Ok(Counted) ==> folders < FOLDER_LIMIT
    ensures r.Ok? ==> (r.value.Counted? <==> Entered(w, e.address).Some?)
  {
    stack := rest;
    ghost var started := recorder.started;
    var p := e.address;
    var folder := graph(e.node);
    Taken(recorder, rest, e, popped, 0);
    Taken(recorder, rest, e, popped, folder.children);
    RestKnown(w, rest, e);
    var unit := FolderUnit(p);
    if !e.unitStarted {
      if unit in recorder.skipped {
        Finished(recorder, rest, popped, p, 0, 0);
        LeftComplete(w, started, started, rest, e, popped);
        return Ok(Left), stack;
      }
      var begun := recorder.Start(unit);
      if begun.Err? {
        return Err(begun.error), stack;
      }
    }
    if folder.identifier.None? {
      var ended := recorder.End(unit);
      if ended.Err? {
        return Err(ended.error), stack;
      }
      Finished(recorder, rest, popped, p, 0, 0);
      LeftComplete(w, started, recorder.started, rest, e, popped);
      return Ok(Left), stack;
    }
    if folders + 1 > FOLDER_LIMIT {
      FoldersOpened(w, recorder.started, popped, p);
      return Err(TooManyFolders), stack;
    }
    var visited;
    visited, stack := VisitEntered(recorder, folder, p, rest, limited, popped, w);
    if visited.Err? {
      return Err(visited.error), stack;
    }
    VisitedComplete(w, started, recorder.started, rest, e, stack, popped, folder);
    r := Ok(Counted);
  }

  /** The rest of the folder's own unit, and its contents. */
  method VisitEntered(recorder: Recorder, folder: Folder, p: Address, rest: seq<Pending>, limited: RecoveryUnit -> bool,
                      ghost popped: set<Address>, ghost w: World)
    returns (r: Result<(), Failure>, stack: seq<Pending>)
    requires recorder.Valid() && Nest(recorder.events) == Inside(FolderUnit(p)) && folder.identifier.Some?
    requires Closed(popped) && p !in popped && Near(popped, p) && FolderUnit(p) in recorder.started
    requires AllExplained(recorder.started, popped, p, folder.children, 0, 0)
    requires Waiting(rest, popped, p, folder.children)
    requires MeetsWorld(w, recorder) && w.limited == limited && Entered(w, p) == Some(folder)
    requires Truthful(w, recorder.started) && Known(w, rest) && UnlimitedBut(w, recorder.started, p)
    modifies recorder
    ensures recorder.Valid() && Truthful(w, recorder.started) && old(recorder.started) <= recorder.started
    ensures r.Err? ==> Caused(w, recorder.events, recorder.started, r.error)
    ensures r.Ok? ==> Between(recorder, stack, popped + {p})
    ensures r.Ok? ==> Known(w, stack) && rest <= stack
    ensures r.Ok? ==> ChildrenSeen(w, recorder.started, stack, p, 0)
    ensures r.Ok? ==> MessagesSeen(w, recorder.started, p, folder.identifier.value, folder.messages)
    ensures r.Ok? ==> AssociatedSeen(w, recorder.started, p, folder.identifier.value, folder.associated)
    ensures r.Ok? ==> Unlimited(w, recorder.started) && WithinLimits(w, p)
  {
    stack := rest;
    var _ :- Describe(recorder, folder, p, limited(FolderUnit(p)), w);
    assert Unlimited(w, recorder.started);
    r, stack := VisitContents(recorder, folder, p, rest, limited, popped, w);
  }

  /** The metadata and properties of a folder and the counts of what it holds, up to the end of its unit. */
  method Describe(recorder: Recorder, folder: Folder, p: Address, limited: bool, ghost w: World)
    returns (r: Result<(), Failure>)
    requires recorder.Valid() && Nest(recorder.events) == Inside(FolderUnit(p)) && FolderUnit(p) in recorder.started
    requires MeetsWorld(w, recorder) && Entered(w, p) == Some(folder) && w.limited(FolderUnit(p)) == limited
    modifies recorder
    ensures recorder.Valid() && recorder.started == old(recorder.started)
    ensures r.Ok? ==> Nest(recorder.events).Idle? && !limited && folder.messages <= 100_000_000 && folder.associated <= 100_000_000
    ensures r.Err? ==> Caused(w, recorder.events, recorder.started, r.error)
  {
    var _ :- recorder.Others(limited);
    if folder.messages > MAX_MESSAGES || folder.associated > MAX_MESSAGES {
      assert ManyItems(w, recorder.started, p);
      return Err(TooManyItems);
    }
    var _ :- recorder.End(FolderUnit(p));
    return Ok(());
  }

  /** The children of a folder, its messages and its associated contents. */
  method VisitContents(recorder: Recorder, folder: Folder, p: Address, rest: seq<Pending>, limited: RecoveryUnit -> bool,
                       ghost popped: set<Address>, ghost w: World)
    returns (r: Result<(), Failure>, stack: seq<Pending>)
    requires recorder.Valid() && Nest(recorder.events).Idle? && folder.identifier.Some?
    requires Closed(popped) && p !in popped && Near(popped, p) && FolderUnit(p) in recorder.started
    requires AllExplained(recorder.started, popped, p, folder.children, 0, 0)
    requires Waiting(rest, popped, p, folder.children)
    requires MeetsWorld(w, recorder) && w.limited == limited && Entered(w, p) == Some(folder)
    requires Truthful(w, recorder.started) && Known(w, rest)
    modifies recorder
    ensures recorder.Valid() && Truthful(w, recorder.started) && old(recorder.started) <= recorder.started
    ensures r.Err? ==> Caused(w, recorder.events, recorder.started, r.error)
    ensures r.Ok? ==> Between(recorder, stack, popped + {p})
    ensures r.Ok? ==> Known(w, stack) && rest <= stack
    ensures r.Ok? ==> ChildrenSeen(w, recorder.started, stack, p, 0)
    ensures r.Ok? ==> MessagesSeen(w, recorder.started, p, folder.identifier.value, folder.messages)
    ensures r.Ok? ==> AssociatedSeen(w, recorder.started, p, folder.identifier.value, folder.associated)
    ensures r.Ok? ==> folder.children <= 0x1_0000_0000
    ensures r.Ok? && Unlimited(w, old(recorder.started)) ==> Unlimited(w, recorder.started)
  {
    r, stack := VisitChildren(recorder, folder, popped, p, rest, w);
    if r.Err? {
      return;
    }
    r := VisitMessages(recorder, popped, p, folder.identifier.value, folder.messages, limited, w);
    if r.Err? {
      return;
    }
    r := VisitAssociated(recorder, popped, p, folder.identifier.value, folder.messages, folder.associated, limited, w);
    if r.Err? {
      return;
    }
    Finished(recorder, stack, popped, p, folder.messages, folder.associated);
  }

  lemma Finished(recorder: Recorder, stack: seq<Pending>, popped: set<Address>, p: Address, messages: nat, associated: nat)
    requires recorder.Valid() && Nest(recorder.events).Idle?
    requires Closed(popped) && (p == FolderAddress.Root() || ParentIn(popped, p))
    requires AllExplained(recorder.started, popped, p, 0, messages, associated)
    requires Waiting(stack, popped, p, 0)
    ensures Between(recorder, stack, popped + {p})
  {
    forall u | u in recorder.started ensures Done(popped + {p}, u) {
      assert Explained(popped, p, 0, messages, associated, u);
    }
    forall i | 0 <= i < |stack| ensures Ready(popped + {p}, stack[i]) {
      assert WaitsRightly(popped, p, 0, stack[i]);
    }
  }

  lemma LastApart<T>(s: seq<T>)
    requires s != []
    ensures s == s[..|s| - 1] + [s[|s| - 1]]
  {}

  /** With nothing left waiting, every folder that can be reached was visited. */
  lemma {:induction false} ReachedWasVisited(w: World, popped: set<Address>, a: Address)
    requires Frontier(w, [], popped) && Node(w, a).Some?
    ensures a in popped
    decreases a.depth
  {
    if a.Parent().Some? {
      ReachedWasVisited(w, popped, a.Parent().value);
    } else {
      PathDetermines(a, FolderAddress.Root());
    }
    assert Near(popped, a);
  }

  lemma EveryUnitStarted(w: World, started: set<RecoveryUnit>, popped: set<Address>)
    requires Complete(w, started, [], popped) && w.root.Some?
    ensures forall u :: u in started <==> Expected(w, u)
  {
    forall u | Expected(w, u) ensures u in started {
      ReachedWasVisited(w, popped, OwnerOf(u));
    }
  }

  /**
   Traverses every reachable folder. In every run, completed or not, no unit starts twice, only units that are
   expected start (none is skipped), and units never nest. A completed run has started every expected unit and
   ended every unit it started, and met none of the limits; any other ended for a cause in what it met. It terminates on cyclic graphs
   because every visit that can add folders uses the folder budget.
   */
  method Traverse(graph: Graph, root: Option<nat>, skipped: set<RecoveryUnit>, accepts: Sink,
                  limited: RecoveryUnit -> bool)
    returns (r: Result<(), Failure>, events: seq<Event>)
    ensures !Nest(events).Broken?
    ensures NoRepeats(Starts(events))
    ensures forall u :: u in Starts(events) ==> Expected(World(graph, root, skipped, accepts, limited), u)
    ensures r.Ok? ==> forall u :: Expected(World(graph, root, skipped, accepts, limited), u) ==> u in Starts(events)
    ensures r.Ok? ==> Nest(events).Idle?
    ensures r.Ok? ==> Unhindered(World(graph, root, skipped, accepts, limited), (set u | u in Starts(events)))
    ensures r.Err? ==> Caused(World(graph, root, skipped, accepts, limited), events, (set u | u in Starts(events)), r.error)
  {
    ghost var w := World(graph, root, skipped, accepts, limited);
    var recorder := new Recorder(skipped, accepts);
    var rootUnit := FolderUnit(FolderAddress.Root());
    if rootUnit in skipped {
      NothingHinders(w);
      RootSkipped(w);
      return Ok(()), recorder.events;
    }
    var begun := recorder.Start(rootUnit);
    if begun.Err? {
      return begun, recorder.events;
    }
    assert FolderAddress.Root().Parent().None?;
    if root.None? {
      assert Truthful(w, recorder.started);
      StartsAreStarted(recorder, w);
      return Err(RootUnreadable), recorder.events;
    }
    r := VisitAll(recorder, graph, root.value, limited, w);
    StartsAreStarted(recorder, w);
    events := recorder.events;
  }

  lemma StartsAreStarted(recorder: Recorder, w: World)
    requires recorder.Valid() && Truthful(w, recorder.started)
    ensures forall u :: u in Starts(recorder.events) ==> Expected(w, u)
    ensures forall u :: u in recorder.started ==> u in Starts(recorder.events)
  {
    forall u | u in Starts(recorder.events) ensures Expected(w, u) {
      assert u in recorder.started;
    }
  }

  lemma NothingHinders(w: World)
    requires FolderUnit(FolderAddress.Root()) in w.skipped
    ensures Unhindered(w, {})
  {
    forall folders ensures !ManyFolders(w, {}, folders) {
      if folders != {} {
        var a: Address :| a in folders;
        assert !Opened(w, {}, a);
      }
    }
  }

  /** A traversal with nothing left met none of the limits. */
  lemma NoLimitMet(w: World, started: set<RecoveryUnit>, popped: set<Address>)
    requires Complete(w, started, [], popped) && w.root.Some? && Unlimited(w, started)
    requires |EnteredAmong(w, popped)| <= 1_000_000 && forall a :: a in popped ==> WithinLimits(w, a)
    ensures Unhindered(w, started)
  {
    forall a: Address | Entered(w, a).Some? ensures a in popped {
      ReachedWasVisited(w, popped, a);
    }
    forall folders: set<Address> ensures !ManyFolders(w, started, folders) {
      if forall a :: a in folders ==> Opened(w, started, a) {
        assert folders <= EnteredAmong(w, popped);
        SmallerSet(folders, EnteredAmong(w, popped));
      }
    }
  }

  lemma {:induction false} SmallerSet<T>(a: set<T>, b: set<T>)
    requires a <= b
    ensures |a| <= |b|
  {
    if a != {} {
      var x :| x in a;
      SmallerSet(a - {x}, b - {x});
    }
  }

  /** Visits folder after folder, from the root on. */
  method VisitAll(recorder: Recorder, graph: Graph, root: nat, limited: RecoveryUnit -> bool, ghost w: World)
    returns (r: Result<(), Failure>)
    requires MeetsWorld(w, recorder) && w.graph == graph && w.limited == limited && w.root == Some(root)
    requires recorder.Valid() && FolderUnit(FolderAddress.Root()) !in w.skipped
    requires recorder.started == {FolderUnit(FolderAddress.Root())}
    requires Nest(recorder.events) == Inside(FolderUnit(FolderAddress.Root()))
    modifies recorder
    ensures recorder.Valid() && Truthful(w, recorder.started)
    ensures r.Ok? ==> Nest(recorder.events).Idle? && forall u :: Expected(w, u) ==> u in recorder.started
    ensures r.Ok? ==> Unhindered(w, recorder.started)
    ensures r.Err? ==> Caused(w, recorder.events, recorder.started, r.error)
  {
    var stack: seq<Pending> := [Pending(root, FolderAddress.Root(), true)];
    var folders: nat := 0;
    ghost var popped: set<Address> := {};
    RootComplete(w, recorder.started, stack);
    while stack != []
      invariant Between(recorder, stack, popped)
      invariant Complete(w, recorder.started, stack, popped) && folders == |EnteredAmong(w, popped)| <= 1_000_000
      invariant forall a :: a in popped ==> WithinLimits(w, a)
      invariant UnlimitedBut(w, recorder.started, FolderAddress.Root())
      invariant popped != {} ==> Unlimited(w, recorder.started)
      invariant stack != [] && stack[|stack| - 1].unitStarted ==> FolderUnit(FolderAddress.Root()) in recorder.started
      decreases FOLDER_LIMIT - folders, |stack|
    {
      var rest, entry := stack[..|stack| - 1], stack[|stack| - 1];
      LastApart(stack);
      var visit;
      visit, stack := VisitFolder(recorder, graph, limited, entry, rest, folders, popped, w);
      if visit.Err? {
        return Err(visit.error);
      }
      EnteredOneMore(w, popped, entry.address);
      popped := popped + {entry.address};
      if visit.value.Counted? {
        folders := folders + 1;
      }
    }
    EveryUnitStarted(w, recorder.started, popped);
    NoLimitMet(w, recorder.started, popped);
    return Ok(());
  }

  lemma RootComplete(w: World, started: set<RecoveryUnit>, stack: seq<Pending>)
    requires FolderUnit(FolderAddress.Root()) !in w.skipped && started == {FolderUnit(FolderAddress.Root())}
    requires w.root.Some? && stack == [Pending(w.root.value, FolderAddress.Root(), true)]
    ensures Complete(w, started, stack, {})
  {
    assert FolderAddress.Root().Parent().None?;
    assert stack[0].address == FolderAddress.Root();
  }

  lemma RootSkipped(w: World)
    requires FolderUnit(FolderAddress.Root()) in w.skipped
    ensures forall u :: !Expected(w, u)
  {
    forall a: Address ensures Entered(w, a).None? && (a.Parent().Some? ==> Node(w, a).None?) {
      NothingEntered(w, a);
    }
    forall u ensures !Expected(w, u) {
      if u.FolderUnit? && u.address.Parent().None? {
        PathDetermines(u.address, FolderAddress.Root());
      }
    }
  }

  lemma {:induction false} NothingEntered(w: World, a: Address)
    requires FolderUnit(FolderAddress.Root()) in w.skipped
    ensures Entered(w, a).None? && (a.Parent().Some? ==> Node(w, a).None?)
    decreases a.depth
  {
    if a.Parent().Some? {
      NothingEntered(w, a.Parent().value);
    } else {
      PathDetermines(a, FolderAddress.Root());
    }
  }
}
