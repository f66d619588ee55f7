/**
 Metadata of one candidate in direct mode. Messages nest on the wire; the supervisor buffers them as a tree and
 hands them to the sink one message at a time, parents first, while collecting each stream's prefix.
 */
module MetadataBuffer {
  import opened Wrappers
  import opened Direct

  const FRAME_OVERHEAD_BYTES: nat := 256

  /** Frames as the buffering sees them. Data of a folder belongs to no stream. */
  datatype Event = Start(path: Path) | End | Data(owner: Option<Owner>, bytes: seq<byte>) | Note(detail: nat)

  datatype Buffered = Buffered(frames: seq<Event>, children: seq<Buffered>)

  type Prefixes = map<PathIdentity, seq<byte>>

  datatype BufferError = OverBudget | Misplaced

  /** The encoded size of a control frame, and the supervisor's memory budget. */
  datatype Limits = Limits(control: Event -> nat, bytes: nat, frames: nat)

  datatype State = State(stack: seq<Buffered>, root: Option<Buffered>, paths: seq<Path>, unbound: Prefixes,
                         bytes: nat, frames: nat, sent: seq<Event>)

  /** Parents before children, children in order, each message's frames together. */
  function Emit(b: Buffered): seq<Event> {
    b.frames + EmitAll(b.children)
  }

  function EmitAll(bs: seq<Buffered>): seq<Event> {
    if bs == [] then [] else EmitAll(bs[..|bs| - 1]) + Emit(bs[|bs| - 1])
  }

  // The buffering, frame by frame.

  function Payload(e: Event): nat {
    if e.Data? then |e.bytes| else 0
  }

  function Cost(l: Limits, e: Event): nat {
    l.control(e) + 2 * Payload(e) + FRAME_OVERHEAD_BYTES
  }

  predicate Affordable(l: Limits, st: State, e: Event) {
    st.bytes + Cost(l, e) <= l.bytes && st.frames + 1 <= l.frames
  }

  function Charged(l: Limits, st: State, e: Event): State {
    st.(bytes := st.bytes + Cost(l, e), frames := st.frames + 1)
  }

  /** Appends a frame to the innermost open message. */
  function Push(stack: seq<Buffered>, e: Event): seq<Buffered>
    requires stack != []
  {
    var top := stack[|stack| - 1];
    stack[..|stack| - 1] + [Buffered(top.frames + [e], top.children)]
  }

  /** Appends a finished message to the innermost open message. */
  function Adopt(stack: seq<Buffered>, child: Buffered): seq<Buffered>
    requires stack != []
  {
    var top := stack[|stack| - 1];
    stack[..|stack| - 1] + [Buffered(top.frames, top.children + [child])]
  }

  function Lookup(unbound: Prefixes, p: PathIdentity): seq<byte> {
    if p in unbound then unbound[p] else []
  }

  function Extend(unbound: Prefixes, p: PathIdentity, bytes: seq<byte>): Prefixes {
    unbound[p := Lookup(unbound, p) + bytes]
  }

  function Step(l: Limits, st: State, e: Event): Result<State, BufferError> {
    if st.stack == [] && !e.Start? then
      if e.End? || (e.Data? && e.owner.Some?) then Err(Misplaced)
      else Ok(st.(sent := st.sent + [e]))
    else if !Affordable(l, st, e) then Err(OverBudget)
    else StepInside(Charged(l, st, e), e)
  }

  function StepInside(st: State, e: Event): Result<State, BufferError>
    requires e.Start? || st.stack != []
  {
    match e
    case Start(path) => Ok(st.(stack := st.stack + [Buffered([e], [])], paths := st.paths + [path]))
    case End =>
      var stack := Push(st.stack, e);
      var completed, outer := stack[|stack| - 1], stack[..|stack| - 1];
      if st.paths == [] || (outer == [] && st.root.Some?) then Err(Misplaced)
      else
        var paths := st.paths[..|st.paths| - 1];
        if outer == [] then Ok(st.(stack := [], root := Some(completed), paths := paths))
        else Ok(st.(stack := Adopt(outer, completed), paths := paths))
    case Data(Some(owner), bytes) =>
      if st.paths == [] then Err(Misplaced)
      else
        var p := PathIdentity(st.paths[|st.paths| - 1], owner);
        Ok(st.(stack := Push(st.stack, e), unbound := Extend(st.unbound, p, bytes)))
    case _ => Ok(st.(stack := Push(st.stack, e)))
  }

  function Run(l: Limits, st: State, events: seq<Event>): Result<State, BufferError>
    decreases |events|
  {
    if events == [] then Ok(st)
    else
      var next := Step(l, st, events[0]);
      if next.Err? then next else Run(l, next.value, events[1..])
  }

  lemma {:induction false} RunTwice(l: Limits, st: State, a: seq<Event>, b: seq<Event>)
    requires Run(l, st, a).Ok?
    ensures Run(l, st, a + b) == Run(l, Run(l, st, a).value, b)
    decreases |a|
  {
    if a == [] {
      assert a + b == b;
    } else {
      assert (a + b)[1..] == a[1..] + b;
      RunTwice(l, Step(l, st, a[0]).value, a[1..], b);
    }
  }

  const EMPTY: State := State([], None, [], map[], 0, 0, [])

  /** What the loop has collected when the metadata of a candidate ends. */
  datatype Candidate = NoMessage | Collected(emitted: seq<Event>, unbound: Prefixes)

  function Outcome(r: Result<State, BufferError>): Result<Candidate, BufferError> {
    match r
    case Err(e) => Err(e)
    case Ok(st) =>
      if st.stack != [] then Err(Misplaced)
      else if st.root.None? then Ok(NoMessage)
      else Ok(Collected(st.sent + Emit(st.root.value), st.unbound))
  }

  method EmitTree(b: Buffered, sent: seq<Event>) returns (r: seq<Event>)
    ensures r == sent + Emit(b)
  {
    r := sent + b.frames;
    for i := 0 to |b.children|
      invariant r == sent + b.frames + EmitAll(b.children[..i])
    {
      assert b.children[..i + 1][..i] == b.children[..i];
      r := EmitTree(b.children[i], r);
    }
    assert b.children[..|b.children|] == b.children;
  }

  /** The buffering state: open messages innermost last, the finished root, and the prefixes so far. */
  class Collector {
    var messages: seq<Buffered>
    var root: Option<Buffered>
    var activePaths: seq<Path>
    var unbound: Prefixes
    var bytes: nat
    var frames: nat
    var sent: seq<Event>

    constructor ()
      ensures Value() == EMPTY
    {
      messages, root, activePaths, unbound, bytes, frames, sent := [], None, [], map[], 0, 0, [];
    }

    ghost function Value(): State
      reads this
    {
      State(messages, root, activePaths, unbound, bytes, frames, sent)
    }

    method Charge(l: Limits, e: Event) returns (r: Result<(), BufferError>)
      modifies this`bytes, this`frames
      ensures r.Ok? <==> Affordable(l, old(Value()), e)
      ensures if r.Ok? then Value() == Charged(l, old(Value()), e) else r.error == OverBudget && Value() == old(Value())
    {
      if bytes + Cost(l, e) > l.bytes || frames + 1 > l.frames {
        return Err(OverBudget);
      }
      bytes, frames := bytes + Cost(l, e), frames + 1;
      return Ok(());
    }

    /** The end of the innermost message: it joins its parent, or becomes the root. */
    method Close() returns (r: Result<(), BufferError>)
      requires messages != []
      modifies this
      ensures StepInside(old(Value()), End) == if r.Ok? then Ok(Value()) else Err(r.error)
    {
      messages := Push(messages, End);
      var completed := messages[|messages| - 1];
      messages := messages[..|messages| - 1];
      if messages != [] {
        messages := Adopt(messages, completed);
      } else if root.Some? {
        return Err(Misplaced);
      } else {
        root := Some(completed);
      }
      if activePaths == [] {
        return Err(Misplaced);
      }
      activePaths := activePaths[..|activePaths| - 1];
      return Ok(());
    }

    method Accept(l: Limits, e: Event) returns (r: Result<(), BufferError>)
      modifies this
      ensures Step(l, old(Value()), e) == if r.Ok? then Ok(Value()) else Err(r.error)
    {
      if messages == [] && !e.Start? {
        if e.End? || (e.Data? && e.owner.Some?) {
          return Err(Misplaced);
        }
        sent := sent + [e];
        return Ok(());
      }
      var _ :- Charge(l, e);
      match e
      case Start(path) =>
        activePaths := activePaths + [path];
        messages := messages + [Buffered([e], [])];
        return Ok(());
      case End =>
        r := Close();
      case Data(Some(owner), payload) =>
        if activePaths == [] {
          return Err(Misplaced);
        }
        unbound := Extend(unbound, PathIdentity(activePaths[|activePaths| - 1], owner), payload);
        messages := Push(messages, e);
        return Ok(());
      case _ =>
        messages := Push(messages, e);
        return Ok(());
    }
  }

  /** Buffers the frames of one candidate's metadata and emits them. */
  method CollectMetadata(l: Limits, events: seq<Event>) returns (r: Result<Candidate, BufferError>)
    ensures r == Outcome(Run(l, EMPTY, events))
  {
    var collector := new Collector();
    for i := 0 to |events|
      invariant fresh(collector)
      invariant Run(l, EMPTY, events) == Run(l, collector.Value(), events[i..])
    {
      assert events[i..][1..] == events[i + 1..];
      var accepted := collector.Accept(l, events[i]);
      if accepted.Err? {
        return Err(accepted.error);
      }
    }
    if collector.messages != [] {
      return Err(Misplaced);
    }
    if collector.root.None? {
      return Ok(NoMessage);
    }
    var emitted := EmitTree(collector.root.value, collector.sent);
    return Ok(Collected(emitted, collector.unbound));
  }

  // Messages as the worker nests them.

  datatype Message = Message(path: Path, parts: seq<Part>)
  datatype Part = Own(event: Event) | Child(message: Message)

  predicate WellFormed(m: Message)
    decreases m
  {
    forall i :: 0 <= i < |m.parts| ==> WellFormedPart(m.parts[i])
  }

  predicate WellFormedPart(part: Part)
    decreases part
  {
    match part
    case Own(e) => !e.Start? && !e.End?
    case Child(m) => WellFormed(m)
  }

  predicate WellFormedParts(parts: seq<Part>) {
    forall i :: 0 <= i < |parts| ==> WellFormedPart(parts[i])
  }

  function Wire(m: Message): seq<Event>
    decreases m, 1
  {
    [Start(m.path)] + WireParts(m.parts) + [End]
  }

  function WireParts(parts: seq<Part>): seq<Event>
    decreases parts, 0
  {
    if parts == [] then [] else WireParts(parts[..|parts| - 1]) + WirePart(parts[|parts| - 1])
  }

  function WirePart(part: Part): seq<Event>
    decreases part, 2
  {
    match part
    case Own(e) => [e]
    case Child(m) => Wire(m)
  }

  function OwnFrames(parts: seq<Part>): seq<Event> {
    if parts == [] then []
    else
      var part := parts[|parts| - 1];
      OwnFrames(parts[..|parts| - 1]) + (if part.Own? then [part.event] else [])
  }

  function Frames(m: Message): seq<Event> {
    [Start(m.path)] + OwnFrames(m.parts) + [End]
  }

  /** The tree a message is buffered as. */
  function Tree(m: Message): Buffered
    decreases m, 1
  {
    Buffered(Frames(m), Trees(m.parts))
  }

  function Trees(parts: seq<Part>): seq<Buffered>
    decreases parts, 0
  {
    if parts == [] then []
    else
      Trees(parts[..|parts| - 1]) + TreesOf(parts[|parts| - 1])
  }

  function TreesOf(part: Part): seq<Buffered>
    decreases part, 2
  {
    if part.Child? then [Tree(part.message)] else []
  }

  // The prefixes of a message.

  /** The bytes the wire carries for a stream, concatenated in order. */
  function BytesFor(m: Message, p: PathIdentity): seq<byte>
    decreases m, 1
  {
    BytesOfParts(m.path, m.parts, p)
  }

  function BytesOfParts(path: Path, parts: seq<Part>, p: PathIdentity): seq<byte>
    decreases parts, 0
  {
    if parts == [] then []
    else BytesOfParts(path, parts[..|parts| - 1], p) + BytesOfPart(path, parts[|parts| - 1], p)
  }

  function BytesOfPart(path: Path, part: Part, p: PathIdentity): seq<byte>
    decreases part, 2
  {
    match part
    case Own(Data(Some(owner), bytes)) => if PathIdentity(path, owner) == p then bytes else []
    case Own(_) => []
    case Child(m) => BytesFor(m, p)
  }

  /** The collection holds these bytes more for every stream. */
  ghost predicate Gathered(before: Prefixes, after: Prefixes, path: Path, parts: seq<Part>) {
    forall p :: Lookup(after, p) == Lookup(before, p) + BytesOfParts(path, parts, p)
  }

  lemma GatheredNothing(before: Prefixes, path: Path)
    ensures Gathered(before, before, path, [])
  {
    forall p ensures Lookup(before, p) == Lookup(before, p) + BytesOfParts(path, [], p) {
      assert Lookup(before, p) + [] == Lookup(before, p);
    }
  }

  lemma GatheredMore(before: Prefixes, middle: Prefixes, after: Prefixes, path: Path, parts: seq<Part>, part: Part)
    requires Gathered(before, middle, path, parts)
    requires forall p :: Lookup(after, p) == Lookup(middle, p) + BytesOfPart(path, part, p)
    ensures Gathered(before, after, path, parts + [part])
  {
    forall p ensures Lookup(after, p) == Lookup(before, p) + BytesOfParts(path, parts + [part], p) {
      BytesAppend(path, parts, part, p);
      assert Lookup(middle, p) == Lookup(before, p) + BytesOfParts(path, parts, p);
      Regroup(Lookup(before, p), BytesOfParts(path, parts, p), BytesOfPart(path, part, p));
    }
  }

  lemma BytesAppend(path: Path, parts: seq<Part>, part: Part, p: PathIdentity)
    ensures BytesOfParts(path, parts + [part], p) == BytesOfParts(path, parts, p) + BytesOfPart(path, part, p)
  {
    assert (parts + [part])[..|parts|] == parts;
  }

  lemma Regroup<T>(a: seq<T>, b: seq<T>, c: seq<T>)
    ensures (a + b) + c == a + (b + c)
  {}

  // Running the wire of a message.

  function TotalCost(l: Limits, events: seq<Event>): nat {
    if events == [] then 0 else TotalCost(l, events[..|events| - 1]) + Cost(l, events[|events| - 1])
  }

  lemma {:induction false} TotalCostAppend(l: Limits, a: seq<Event>, b: seq<Event>)
    ensures TotalCost(l, a + b) == TotalCost(l, a) + TotalCost(l, b)
    decreases |b|
  {
    if b == [] {
      assert a + b == a;
    } else {
      assert (a + b)[..|a + b| - 1] == a + b[..|b| - 1];
      TotalCostAppend(l, a, b[..|b| - 1]);
    }
  }

  /** The budget has room for these frames. */
  predicate Room(l: Limits, st: State, events: seq<Event>) {
    st.bytes + TotalCost(l, events) <= l.bytes && st.frames + |events| <= l.frames
  }

  function TotalControl(l: Limits, events: seq<Event>): nat {
    if events == [] then 0 else l.control(events[0]) + TotalControl(l, events[1..])
  }

  function TotalPayload(events: seq<Event>): nat {
    if events == [] then 0
    else (match events[0] case Data(_, bytes) => |bytes| case _ => 0) + TotalPayload(events[1..])
  }

  /** A frame is charged its encoded size, its payload twice, and 256 bytes. */
  lemma {:induction false} CostMeaning(l: Limits, events: seq<Event>)
    ensures TotalCost(l, events) == TotalControl(l, events) + 2 * TotalPayload(events) + 256 * |events|
  {
    if events != [] {
      assert events == [events[0]] + events[1..];
      TotalCostAppend(l, [events[0]], events[1..]);
      CostOne(l, events[0]);
      CostMeaning(l, events[1..]);
    }
  }

  /** What buffering parts of the innermost message does to the state. */
  ghost predicate PartsBuffered(l: Limits, st: State, st': State, parts: seq<Part>)
    requires st.stack != [] && st.paths != []
  {
    var n := |st.stack| - 1;
    && st'.stack == st.stack[..n] + [Buffered(st.stack[n].frames + OwnFrames(parts), st.stack[n].children + Trees(parts))]
    && st'.root == st.root && st'.paths == st.paths && st'.sent == st.sent
    && Gathered(st.unbound, st'.unbound, st.paths[|st.paths| - 1], parts)
    && st'.bytes == st.bytes + TotalCost(l, WireParts(parts)) && st'.frames == st.frames + |WireParts(parts)|
  }

  ghost predicate MessageBuffered(l: Limits, st: State, st': State, m: Message) {
    && (if st.stack == [] then st'.stack == [] && st'.root == Some(Tree(m))
        else st'.stack == Adopt(st.stack, Tree(m)) && st'.root == st.root)
    && st'.paths == st.paths && st'.sent == st.sent
    && (forall p :: Lookup(st'.unbound, p) == Lookup(st.unbound, p) + BytesFor(m, p))
    && st'.bytes == st.bytes + TotalCost(l, Wire(m)) && st'.frames == st.frames + |Wire(m)|
  }

  lemma RunOne(l: Limits, st: State, e: Event)
    ensures Run(l, st, [e]) == Step(l, st, e)
  {
    assert [e][1..] == [];
    assert Step(l, st, e).Ok? ==> Run(l, Step(l, st, e).value, []) == Step(l, st, e);
  }

  lemma CostOne(l: Limits, e: Event)
    ensures TotalCost(l, [e]) == Cost(l, e)
  {
    assert [e][..0] == [];
  }

  lemma {:induction false} RunParts(l: Limits, st: State, parts: seq<Part>) returns (st': State)
    requires WellFormedParts(parts) && st.stack != [] && st.paths != [] && Room(l, st, WireParts(parts))
    ensures Run(l, st, WireParts(parts)) == Ok(st') && PartsBuffered(l, st, st', parts)
    decreases parts, 0
  {
    if parts == [] {
      st' := st;
      GatheredNothing(st.unbound, st.paths[|st.paths| - 1]);
      var top := st.stack[|st.stack| - 1];
      assert top.frames + [] == top.frames && top.children + [] == top.children;
      assert st.stack == st.stack[..|st.stack| - 1] + [top];
      return;
    }
    var n := |parts| - 1;
    var before, part := parts[..n], parts[n];
    assert parts == before + [part];
    TotalCostAppend(l, WireParts(before), WirePart(part));
    var middle := RunParts(l, st, before);
    RunTwice(l, st, WireParts(before), WirePart(part));
    st' := RunPart(l, middle, part);
    PartsStep(l, st, middle, st', before, part);
  }

  /** One more part: either one frame, or a whole message. */
  ghost predicate PartBuffered(l: Limits, st: State, st': State, part: Part)
    requires st.stack != [] && st.paths != []
  {
    && st'.stack == (if part.Own? then Push(st.stack, part.event) else Adopt(st.stack, Tree(part.message)))
    && st'.root == st.root && st'.paths == st.paths && st'.sent == st.sent
    && (forall p :: Lookup(st'.unbound, p) == Lookup(st.unbound, p) + BytesOfPart(st.paths[|st.paths| - 1], part, p))
    && st'.bytes == st.bytes + TotalCost(l, WirePart(part)) && st'.frames == st.frames + |WirePart(part)|
  }

  lemma PartsStep(l: Limits, st: State, middle: State, st': State, parts: seq<Part>, part: Part)
    requires st.stack != [] && st.paths != []
    requires PartsBuffered(l, st, middle, parts) && PartBuffered(l, middle, st', part)
    ensures PartsBuffered(l, st, st', parts + [part])
  {
    assert (parts + [part])[..|parts|] == parts;
    var n := |st.stack| - 1;
    var top := st.stack[n];
    assert middle.stack[..n] == st.stack[..n];
    if part.Own? {
      Regroup(top.frames, OwnFrames(parts), [part.event]);
      assert Trees(parts) + [] == Trees(parts);
    } else {
      Regroup(top.children, Trees(parts), [Tree(part.message)]);
      assert OwnFrames(parts) + [] == OwnFrames(parts);
    }
    GatheredMore(st.unbound, middle.unbound, st'.unbound, st.paths[|st.paths| - 1], parts, part);
    TotalCostAppend(l, WireParts(parts), WirePart(part));
  }

  lemma {:induction false} RunPart(l: Limits, st: State, part: Part) returns (st': State)
    requires WellFormedPart(part) && st.stack != [] && st.paths != [] && Room(l, st, WirePart(part))
    ensures Run(l, st, WirePart(part)) == Ok(st') && PartBuffered(l, st, st', part)
    decreases part, 2
  {
    match part
    case Own(e) =>
      RunOne(l, st, e);
      CostOne(l, e);
      st' := Step(l, st, e).value;
    case Child(m) =>
      st' := RunMessage(l, st, m);
  }

  lemma {:induction false} RunMessage(l: Limits, st: State, m: Message) returns (st': State)
    requires WellFormed(m) && Room(l, st, Wire(m))
    requires st.stack == [] ==> st.root.None?
    ensures Run(l, st, Wire(m)) == Ok(st') && MessageBuffered(l, st, st', m)
    decreases m, 1
  {
    var start, body := Start(m.path), WireParts(m.parts);
    TotalCostAppend(l, [start], body);
    TotalCostAppend(l, [start] + body, [End]);
    CostOne(l, start);
    CostOne(l, End);
    RunOne(l, st, start);
    var entered := Step(l, st, start).value;
    var inside := RunParts(l, entered, m.parts);
    RunTwice(l, st, [start], body);
    RunTwice(l, st, [start] + body, [End]);
    RunOne(l, inside, End);
    MessageCloses(l, st, entered, inside, m);
    st' := Step(l, inside, End).value;
  }

  lemma MessageCloses(l: Limits, st: State, entered: State, inside: State, m: Message)
    requires st.stack == [] ==> st.root.None?
    requires Step(l, st, Start(m.path)) == Ok(entered) && entered.stack != [] && entered.paths != []
    requires PartsBuffered(l, entered, inside, m.parts) && Affordable(l, inside, End)
    requires TotalCost(l, Wire(m)) == Cost(l, Start(m.path)) + TotalCost(l, WireParts(m.parts)) + Cost(l, End)
    ensures Step(l, inside, End).Ok? && MessageBuffered(l, st, Step(l, inside, End).value, m)
  {
    var n := |st.stack|;
    assert entered.stack[..n] == st.stack;
    assert inside.stack == st.stack + [Buffered([Start(m.path)] + OwnFrames(m.parts), [] + Trees(m.parts))];
    assert [] + Trees(m.parts) == Trees(m.parts);
    assert inside.stack[n] == Buffered([Start(m.path)] + OwnFrames(m.parts), Trees(m.parts));
    assert inside.stack[..n] == st.stack;
    assert Push(inside.stack, End) == st.stack + [Tree(m)];
    assert entered.paths[..|st.paths|] == st.paths;
    var st' := Step(l, inside, End).value;
    assert st'.unbound == inside.unbound && entered.unbound == st.unbound;
    forall p ensures Lookup(st'.unbound, p) == Lookup(st.unbound, p) + BytesFor(m, p) {
      assert Lookup(inside.unbound, p) == Lookup(entered.unbound, p) + BytesOfParts(m.path, m.parts, p);
    }
  }

  // What is emitted.

  /** The messages of a tree, each before its children, children in order. */
  function Listed(m: Message): seq<Message>
    decreases m, 1
  {
    [m] + ListedParts(m.parts)
  }

  function ListedParts(parts: seq<Part>): seq<Message>
    decreases parts, 0
  {
    if parts == [] then [] else ListedParts(parts[..|parts| - 1]) + ListedPart(parts[|parts| - 1])
  }

  function ListedPart(part: Part): seq<Message>
    decreases part, 2
  {
    if part.Child? then Listed(part.message) else []
  }

  function AllFrames(ms: seq<Message>): seq<Event> {
    if ms == [] then [] else AllFrames(ms[..|ms| - 1]) + Frames(ms[|ms| - 1])
  }

  lemma {:induction false} AllFramesAppend(a: seq<Message>, b: seq<Message>)
    ensures AllFrames(a + b) == AllFrames(a) + AllFrames(b)
    decreases |b|
  {
    if b == [] {
      assert a + b == a;
    } else {
      assert (a + b)[..|a + b| - 1] == a + b[..|b| - 1];
      AllFramesAppend(a, b[..|b| - 1]);
      Regroup(AllFrames(a), AllFrames(b[..|b| - 1]), Frames(b[|b| - 1]));
    }
  }

  lemma EmitAllAppend(a: seq<Buffered>, b: Buffered)
    ensures EmitAll(a + [b]) == EmitAll(a) + Emit(b)
  {
    assert (a + [b])[..|a|] == a;
  }

  /** Each message is emitted in one piece, with its own frames in their own order. */
  lemma {:induction false} EmitInPieces(m: Message)
    ensures Emit(Tree(m)) == AllFrames(Listed(m))
    decreases m, 1
  {
    AllFramesAppend([m], ListedParts(m.parts));
    assert [m][..0] == [];
    EmitPartsInPieces(m.parts);
  }

  lemma {:induction false} EmitPartsInPieces(parts: seq<Part>)
    ensures EmitAll(Trees(parts)) == AllFrames(ListedParts(parts))
    decreases parts, 0
  {
    if parts != [] {
      var before, part := parts[..|parts| - 1], parts[|parts| - 1];
      EmitPartsInPieces(before);
      AllFramesAppend(ListedParts(before), ListedPart(part));
      if part.Child? {
        EmitPartInPieces(part);
        EmitAllAppend(Trees(before), Tree(part.message));
      } else {
        assert Trees(parts) == Trees(before);
      }
    }
  }

  lemma {:induction false} EmitPartInPieces(part: Part)
    requires part.Child?
    ensures Emit(Tree(part.message)) == AllFrames(Listed(part.message))
    decreases part, 2
  {
    EmitInPieces(part.message);
  }

  function Starts(events: seq<Event>): seq<Path> {
    if events == [] then []
    else
      var e := events[|events| - 1];
      Starts(events[..|events| - 1]) + (if e.Start? then [e.path] else [])
  }

  lemma {:induction false} StartsAppend(a: seq<Event>, b: seq<Event>)
    ensures Starts(a + b) == Starts(a) + Starts(b)
    decreases |b|
  {
    if b == [] {
      assert a + b == a;
    } else {
      assert (a + b)[..|a + b| - 1] == a + b[..|b| - 1];
      StartsAppend(a, b[..|b| - 1]);
    }
  }

  lemma {:induction false} OwnFramesStartNothing(parts: seq<Part>)
    requires WellFormedParts(parts)
    ensures Starts(OwnFrames(parts)) == []
  {
    if parts != [] {
      var before, part := parts[..|parts| - 1], parts[|parts| - 1];
      OwnFramesStartNothing(before);
      if part.Own? {
        StartsAppend(OwnFrames(before), [part.event]);
        assert WellFormedPart(part);
        assert [part.event][..0] == [];
      } else {
        assert OwnFrames(parts) == OwnFrames(before);
      }
    }
  }

  lemma PieceContents<T>(start: seq<T>, own: seq<T>, end: seq<T>, children: seq<T>, body: seq<T>)
    requires multiset(body) == multiset(own) + multiset(children)
    ensures multiset((start + own + end) + children) == multiset(start + body + end)
  {}

  lemma OwnContents<T>(body: seq<T>, own: seq<T>, children: seq<T>, x: seq<T>)
    requires multiset(body) == multiset(own) + multiset(children)
    ensures multiset(body + x) == multiset(own + x) + multiset(children)
  {}

  lemma ChildContents<T>(body: seq<T>, own: seq<T>, children: seq<T>, wire: seq<T>, child: seq<T>)
    requires multiset(body) == multiset(own) + multiset(children) && multiset(child) == multiset(wire)
    ensures multiset(body + wire) == multiset(own) + multiset(children + child)
  {}

  /** Flattening loses and invents nothing. */
  lemma {:induction false} EmitPermutes(m: Message)
    ensures multiset(Emit(Tree(m))) == multiset(Wire(m))
    decreases m, 1
  {
    EmitPartsPermute(m.parts);
    PieceContents([Start(m.path)], OwnFrames(m.parts), [End], EmitAll(Trees(m.parts)), WireParts(m.parts));
  }

  lemma {:induction false} EmitPartsPermute(parts: seq<Part>)
    ensures multiset(WireParts(parts)) == multiset(OwnFrames(parts)) + multiset(EmitAll(Trees(parts)))
    decreases parts, 0
  {
    if parts != [] {
      var before, part := parts[..|parts| - 1], parts[|parts| - 1];
      var own, children := OwnFrames(before), EmitAll(Trees(before));
      EmitPartsPermute(before);
      if part.Child? {
        EmitPartPermutes(part);
        EmitAllAppend(Trees(before), Tree(part.message));
        assert own + [] == own;
        ChildContents(WireParts(before), own, children, WirePart(part), Emit(Tree(part.message)));
      } else {
        assert Trees(parts) == Trees(before);
        OwnContents(WireParts(before), own, children, [part.event]);
      }
    }
  }

  lemma {:induction false} EmitPartPermutes(part: Part)
    requires part.Child?
    ensures multiset(Emit(Tree(part.message))) == multiset(WirePart(part))
    decreases part, 2
  {
    EmitPermutes(part.message);
  }

  /** Messages are emitted in the order the worker started them. */
  lemma {:induction false} EmitKeepsStarts(m: Message)
    requires WellFormed(m)
    ensures Starts(Emit(Tree(m))) == Starts(Wire(m))
    decreases m, 1
  {
    var start, own, end: seq<Event> := [Start(m.path)], OwnFrames(m.parts), [End];
    EmitPartsKeepStarts(m.parts);
    OwnFramesStartNothing(m.parts);
    StartsAppend(start + own + end, EmitAll(Trees(m.parts)));
    StartsAppend(start + own, end);
    StartsAppend(start, own);
    StartsAppend(start + WireParts(m.parts), end);
    StartsAppend(start, WireParts(m.parts));
    assert end[..0] == [] && Starts(end) == [];
    assert Starts(start) + [] + [] == Starts(start);
  }

  lemma {:induction false} EmitPartsKeepStarts(parts: seq<Part>)
    requires WellFormedParts(parts)
    ensures Starts(WireParts(parts)) == Starts(EmitAll(Trees(parts)))
    decreases parts, 0
  {
    if parts != [] {
      var before, part := parts[..|parts| - 1], parts[|parts| - 1];
      EmitPartsKeepStarts(before);
      StartsAppend(WireParts(before), WirePart(part));
      assert WellFormedPart(part);
      EmitPartKeepsStarts(part);
      if part.Child? {
        EmitAllAppend(Trees(before), Tree(part.message));
        StartsAppend(EmitAll(Trees(before)), Emit(Tree(part.message)));
      } else {
        assert Trees(parts) == Trees(before);
      }
    }
  }

  lemma {:induction false} EmitPartKeepsStarts(part: Part)
    requires WellFormedPart(part)
    ensures part.Child? ==> Starts(Emit(Tree(part.message))) == Starts(WirePart(part))
    ensures part.Own? ==> Starts(WirePart(part)) == []
    decreases part, 2
  {
    if part.Child? {
      EmitKeepsStarts(part.message);
    } else {
      assert [part.event][..0] == [];
    }
  }

  // A whole candidate.

  predicate Outside(events: seq<Event>) {
    forall i :: 0 <= i < |events| ==> events[i].Note? || (events[i].Data? && events[i].owner.None?)
  }

  lemma {:induction false} RunOutside(l: Limits, st: State, events: seq<Event>)
    requires Outside(events) && st.stack == []
    ensures Run(l, st, events) == Ok(st.(sent := st.sent + events))
    decreases |events|
  {
    if events == [] {
      assert st.sent + [] == st.sent;
    } else {
      var next := st.(sent := st.sent + [events[0]]);
      RunOutside(l, next, events[1..]);
      assert next.sent + events[1..] == st.sent + events;
    }
  }

  /** The state after a candidate's metadata, with room for it. */
  lemma RunCandidate(l: Limits, before: seq<Event>, m: Message, after: seq<Event>) returns (st: State)
    requires Outside(before) && Outside(after) && WellFormed(m) && Room(l, EMPTY, Wire(m))
    ensures Run(l, EMPTY, before + Wire(m) + after) == Ok(st)
    ensures st.stack == [] && st.root == Some(Tree(m)) && st.sent == before + after
    ensures st.bytes == TotalCost(l, Wire(m)) && st.frames == |Wire(m)|
    ensures forall p :: Lookup(st.unbound, p) == BytesFor(m, p)
  {
    RunOutside(l, EMPTY, before);
    var first := EMPTY.(sent := before);
    assert EMPTY.sent + before == before;
    var second := RunMessage(l, first, m);
    RunOutside(l, second, after);
    st := second.(sent := second.sent + after);
    RunTwice(l, EMPTY, before, Wire(m));
    RunTwice(l, EMPTY, before + Wire(m), after);
    forall p ensures Lookup(st.unbound, p) == BytesFor(m, p) {
      assert Lookup(second.unbound, p) == Lookup(first.unbound, p) + BytesFor(m, p);
      assert Lookup(first.unbound, p) == [];
    }
  }

  lemma {:induction false} WithinBudget(l: Limits, st: State, events: seq<Event>)
    requires Run(l, st, events).Ok? && st.bytes <= l.bytes && st.frames <= l.frames
    ensures Run(l, st, events).value.bytes <= l.bytes && Run(l, st, events).value.frames <= l.frames
    decreases |events|
  {
    if events != [] {
      WithinBudget(l, Step(l, st, events[0]).value, events[1..]);
    }
  }

  lemma {:induction false} MoreRoom(l: Limits, more: Limits, st: State, events: seq<Event>)
    requires more.control == l.control && l.bytes <= more.bytes && l.frames <= more.frames
    requires Run(l, st, events).Ok?
    ensures Run(more, st, events) == Run(l, st, events)
    decreases |events|
  {
    if events != [] {
      assert Cost(more, events[0]) == Cost(l, events[0]);
      MoreRoom(l, more, Step(l, st, events[0]).value, events[1..]);
    }
  }

  /** A candidate's metadata is accepted exactly when the budget has room for its frames. */
  lemma AcceptedWithinBudget(l: Limits, before: seq<Event>, m: Message, after: seq<Event>)
    requires Outside(before) && Outside(after) && WellFormed(m)
    ensures Outcome(Run(l, EMPTY, before + Wire(m) + after)).Ok? <==> Room(l, EMPTY, Wire(m))
  {
    var all := before + Wire(m) + after;
    if Room(l, EMPTY, Wire(m)) {
      var st := RunCandidate(l, before, m, after);
    } else if Run(l, EMPTY, all).Ok? {
      var more := Limits(l.control, l.bytes + TotalCost(l, Wire(m)), l.frames + |Wire(m)|);
      SameCost(l, more, Wire(m));
      var st := RunCandidate(more, before, m, after);
      MoreRoom(l, more, EMPTY, all);
      WithinBudget(l, EMPTY, all);
      assert false;
    }
  }

  lemma {:induction false} SameCost(l: Limits, more: Limits, events: seq<Event>)
    requires more.control == l.control
    ensures TotalCost(more, events) == TotalCost(l, events)
  {
    if events != [] {
      SameCost(l, more, events[..|events| - 1]);
      assert Cost(more, events[|events| - 1]) == Cost(l, events[|events| - 1]);
    }
  }

  /**
   A balanced candidate is delivered whole: every frame once, each message in one piece, messages in the order
   they started, and every stream's prefix is what the wire carried for it.
   */
  lemma CandidateDelivered(l: Limits, before: seq<Event>, m: Message, after: seq<Event>)
    requires Outside(before) && Outside(after) && WellFormed(m) && Room(l, EMPTY, Wire(m))
    ensures Outcome(Run(l, EMPTY, before + Wire(m) + after)).Ok?
    ensures Outcome(Run(l, EMPTY, before + Wire(m) + after)).value.Collected?
    ensures Outcome(Run(l, EMPTY, before + Wire(m) + after)).value.emitted == before + after + AllFrames(Listed(m))
    ensures multiset(AllFrames(Listed(m))) == multiset(Wire(m)) && Starts(AllFrames(Listed(m))) == Starts(Wire(m))
    ensures forall p ::
      Lookup(Outcome(Run(l, EMPTY, before + Wire(m) + after)).value.unbound, p) == BytesFor(m, p)
  {
    var st := RunCandidate(l, before, m, after);
    EmitInPieces(m);
    EmitPermutes(m);
    EmitKeepsStarts(m);
  }

  // Binding prefixes to durable keys.

  ghost predicate Injective(keys: Keys) {
    forall a, b :: a in keys && b in keys && keys[a] == keys[b] ==> a == b
  }

  /** Each bound stream's prefix is what was collected under its path. */
  ghost predicate BoundTo(keys: Keys, unbound: Prefixes, prefixes: map<Identity, seq<byte>>) {
    forall p: PathIdentity :: p.path in keys ==>
      PrefixOf(prefixes, Identity(keys[p.path], p.owner)) == Lookup(unbound, p)
  }

  lemma BindOne(keys: Keys, done: Prefixes, prefixes: map<Identity, seq<byte>>, p: PathIdentity, bytes: seq<byte>)
    requires Injective(keys) && BoundTo(keys, done, prefixes) && p.path in keys
    ensures BoundTo(keys, done[p := bytes], prefixes[Identity(keys[p.path], p.owner) := bytes])
  {
    var after := prefixes[Identity(keys[p.path], p.owner) := bytes];
    forall q: PathIdentity | q.path in keys
      ensures PrefixOf(after, Identity(keys[q.path], q.owner)) == Lookup(done[p := bytes], q)
    {
      if q != p {
        assert Identity(keys[q.path], q.owner) != Identity(keys[p.path], p.owner);
        assert PrefixOf(prefixes, Identity(keys[q.path], q.owner)) == Lookup(done, q);
      }
    }
  }

  /** Moves the collected prefixes from embedded paths to durable item keys; every path must have one. */
  method BindPrefixes(keys: Keys, unbound: Prefixes) returns (r: Result<map<Identity, seq<byte>>, BufferError>)
    requires Injective(keys)
    ensures r.Ok? <==> forall p :: p in unbound ==> p.path in keys
    ensures r.Ok? ==> BoundTo(keys, unbound, r.value)
  {
    var prefixes: map<Identity, seq<byte>> := map[];
    var left := unbound;
    NothingBound(keys, unbound);
    while left != map[]
      invariant Remaining(keys, unbound, left)
      invariant BoundTo(keys, unbound - left.Keys, prefixes)
      decreases |left|
    {
      var p :| p in left;
      if p.path !in keys {
        return Err(Misplaced);
      }
      BindOne(keys, unbound - left.Keys, prefixes, p, left[p]);
      TakenOut(keys, unbound, left, p);
      prefixes := prefixes[Identity(keys[p.path], p.owner) := left[p]];
      left := left - {p};
    }
    AllBound(unbound, left);
    return Ok(prefixes);
  }

  /** What has been taken out of the collection had a key. */
  ghost predicate Remaining(keys: Keys, unbound: Prefixes, left: Prefixes) {
    && (forall p :: p in left ==> p in unbound && left[p] == unbound[p])
    && (forall p :: p in unbound && p !in left ==> p.path in keys)
  }

  lemma NothingBound(keys: Keys, unbound: Prefixes)
    ensures Remaining(keys, unbound, unbound) && BoundTo(keys, unbound - unbound.Keys, map[])
  {
    assert unbound - unbound.Keys == map[];
  }

  lemma AllBound(unbound: Prefixes, left: Prefixes)
    requires left == map[]
    ensures unbound - left.Keys == unbound
  {
    assert left.Keys == {};
  }

  lemma TakenOut(keys: Keys, unbound: Prefixes, left: Prefixes, p: PathIdentity)
    requires Remaining(keys, unbound, left) && p in left && p.path in keys
    ensures Remaining(keys, unbound, left - {p})
    ensures unbound - (left - {p}).Keys == (unbound - left.Keys)[p := left[p]]
  {
    assert (left - {p}).Keys == left.Keys - {p};
  }
}
