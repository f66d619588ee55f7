/**
 Canonical mail assembly: flat durable records are validated and rebuilt into a forest of embedded
 messages. Acyclicity comes from path arithmetic; exactly-once coverage comes from the paths, the top
 ancestors, and a final count.
 */
module Canonical {
  import opened Wrappers

  const MAX_EMBEDDED_MESSAGE_DEPTH: nat := 256

  datatype Terminal = Payload | Missing | Reference
  datatype AttachmentType = EmbeddedType | ReferenceType | OtherType

  /** A durable event of a candidate, reduced to what the forest depends on, and its spooled bytes. */
  datatype Event =
    | AttachmentEvent(index: nat, kind: AttachmentType, bytes: nat)
    | TerminalEvent(index: nat, terminal: Terminal, bytes: nat)
    | OtherEvent(bytes: nat)

  datatype Candidate = Candidate(
    itemKey: string, parentKey: Option<string>, parentIndex: Option<nat>, folder: string, events: seq<Event>)

  /** What the message metadata itself says about ownership; it must agree with the ledger columns. */
  datatype Metadata = Metadata(parentMessageId: Option<nat>, parentIndex: Option<nat>, path: seq<nat>)

  datatype Ownership = Ownership(
    itemKey: string, parentKey: Option<string>, parentIndex: Option<nat>, path: seq<nat>,
    writable: bool, sourceNodeId: Option<nat>, metadata: Option<Metadata>)

  datatype Mail = Mail(itemKey: string, folder: string, slots: seq<Slot>, spooledBytes: nat)
  datatype Slot = Vacant(index: nat) | Holding(index: nat, embedded: Mail)

  datatype Error = InvalidCandidate(key: string) | EmbeddedCycle(key: string) | SizeOverflow | Interrupted

  /** The lookup tables of one assembly. */
  datatype Tables = Tables(
    byKey: map<string, Candidate>,
    owners: map<string, Ownership>,
    children: map<(string, nat), Candidate>,
    unsupported: set<(string, nat)>)

  // Validation.

  predicate WellOwned(o: Ownership, owners: map<string, Ownership>) {
    && |o.path| <= 256
    && o.metadata.Some?
    && o.metadata.value.parentIndex == o.parentIndex
    && o.metadata.value.path == o.path
    && match (o.parentKey, o.parentIndex)
       case (None, None) => o.metadata.value.parentMessageId.None? && o.path == []
       case (Some(parent), Some(index)) =>
         && parent in owners
         && o.path == owners[parent].path + [index]
         && o.metadata.value.parentMessageId
            == Some(match owners[parent].sourceNodeId case Some(id) => id case None => 0)
       case _ => false
  }

  method ValidateOwnership(o: Ownership, owners: map<string, Ownership>) returns (r: Result<(), Error>)
    ensures r.Ok? <==> WellOwned(o, owners)
    ensures r.Err? ==> r.error == InvalidCandidate(o.itemKey)
  {
    if |o.path| > MAX_EMBEDDED_MESSAGE_DEPTH {
      return Err(InvalidCandidate(o.itemKey));
    }
    if o.metadata.None? {
      return Err(InvalidCandidate(o.itemKey));
    }
    var metadata := o.metadata.value;
    if metadata.parentIndex != o.parentIndex || metadata.path != o.path {
      return Err(InvalidCandidate(o.itemKey));
    }
    match (o.parentKey, o.parentIndex)
    case (None, None) =>
      if metadata.parentMessageId.Some? || o.path != [] {
        return Err(InvalidCandidate(o.itemKey));
      }
      return Ok(());
    case (Some(parent), Some(index)) =>
      if parent !in owners {
        return Err(InvalidCandidate(o.itemKey));
      }
      var expected := owners[parent].path + [index];
      if o.path != expected {
        return Err(InvalidCandidate(o.itemKey));
      }
      var id := match owners[parent].sourceNodeId case Some(id) => id case None => 0;
      if metadata.parentMessageId != Some(id) {
        return Err(InvalidCandidate(o.itemKey));
      }
      return Ok(());
    case _ =>
      return Err(InvalidCandidate(o.itemKey));
  }

  ghost predicate OwnerValid(t: Tables, key: string) {
    key in t.owners ==> WellOwned(t.owners[key], t.owners)
  }

  ghost predicate CandidateValid(t: Tables, key: string) {
    key in t.byKey ==>
      && t.byKey[key].itemKey == key && key in t.owners
      && t.owners[key].parentKey == t.byKey[key].parentKey
      && t.owners[key].parentIndex == t.byKey[key].parentIndex
  }

  ghost predicate ChildValid(t: Tables, parent: string, index: nat) {
    (parent, index) in t.children ==>
      var child := t.children[(parent, index)];
      && child.itemKey in t.byKey && t.byKey[child.itemKey] == child
      && child.parentKey == Some(parent) && child.parentIndex == Some(index)
  }

  /** The tables after every record passed validation. */
  ghost predicate Validated(t: Tables) {
    && (forall key :: OwnerValid(t, key))
    && (forall key :: CandidateValid(t, key))
    && (forall parent, index :: ChildValid(t, parent, index))
  }

  /** A candidate with a parent lies one step below it. */
  lemma ParentPath(t: Tables, key: string)
    requires Validated(t) && key in t.byKey
    ensures key in t.owners && |t.owners[key].path| <= MAX_EMBEDDED_MESSAGE_DEPTH
    ensures match (t.byKey[key].parentKey, t.byKey[key].parentIndex)
      case (Some(parent), Some(index)) =>
        parent in t.owners && t.owners[key].path == t.owners[parent].path + [index]
      case (None, None) => t.owners[key].path == []
      case _ => false
  {
    assert CandidateValid(t, key);
    assert OwnerValid(t, key);
  }

  // What the events of a candidate say about its attachments.

  datatype Reading = Reading(attachments: map<nat, AttachmentType>, terminals: map<nat, Terminal>)

  /** An attachment starts once, and ends at most once, after it started. */
  function Replay(events: seq<Event>): Option<Reading> {
    if events == [] then Some(Reading(map[], map[]))
    else
      match Replay(events[..|events| - 1])
      case None => None
      case Some(before) =>
        match events[|events| - 1]
        case AttachmentEvent(index, kind, _) =>
          if index in before.attachments then None else Some(before.(attachments := before.attachments[index := kind]))
        case TerminalEvent(index, terminal, _) =>
          if index in before.terminals || index !in before.attachments then None
          else Some(before.(terminals := before.terminals[index := terminal]))
        case OtherEvent(_) => Some(before)
  }

  lemma {:induction false} ReplayPrefix(events: seq<Event>, n: nat)
    requires n <= |events| && Replay(events[..n]).None?
    ensures Replay(events).None?
    decreases |events|
  {
    if n < |events| {
      assert events[..|events| - 1][..n] == events[..n];
      ReplayPrefix(events[..|events| - 1], n);
    } else {
      assert events[..n] == events;
    }
  }

  function AttachmentIndices(events: seq<Event>): set<nat> {
    set i | 0 <= i < |events| && events[i].AttachmentEvent? :: events[i].index
  }

  /** The attachment at this index starts somewhere, with this type. */
  ghost predicate HasKind(events: seq<Event>, index: nat, kind: AttachmentType) {
    exists i :: 0 <= i < |events| && events[i].AttachmentEvent? && events[i].index == index && events[i].kind == kind
  }

  ghost predicate HasTerminal(events: seq<Event>, index: nat, terminal: Terminal) {
    exists i :: 0 <= i < |events| && events[i].TerminalEvent? && events[i].index == index && events[i].terminal == terminal
  }

  /** This event may follow these: it starts an attachment not started, or ends one that started and has not ended. */
  ghost predicate MayFollow(events: seq<Event>, event: Event) {
    match event
    case AttachmentEvent(index, _, _) => forall kind :: !HasKind(events, index, kind)
    case TerminalEvent(index, _, _) =>
      (exists kind :: HasKind(events, index, kind)) && forall terminal :: !HasTerminal(events, index, terminal)
    case OtherEvent(_) => true
  }

  /** Each attachment starts once, and ends at most once, after it started. */
  ghost predicate WellOrdered(events: seq<Event>) {
    forall n :: 0 <= n < |events| ==> MayFollow(events[..n], events[n])
  }

  ghost predicate Tells(reading: Reading, events: seq<Event>) {
    && (forall index, kind :: HasKind(events, index, kind) <==>
          index in reading.attachments && reading.attachments[index] == kind)
    && (forall index, terminal :: HasTerminal(events, index, terminal) <==>
          index in reading.terminals && reading.terminals[index] == terminal)
  }

  lemma KindAppended(events: seq<Event>, event: Event, index: nat, kind: AttachmentType)
    ensures HasKind(events + [event], index, kind) <==>
      HasKind(events, index, kind) || (event.AttachmentEvent? && event.index == index && event.kind == kind)
  {
    var all := events + [event];
    assert all[|events|] == event;
    if i :| 0 <= i < |events| && events[i].AttachmentEvent? && events[i].index == index && events[i].kind == kind {
      assert all[i] == events[i];
    }
  }

  lemma TerminalAppended(events: seq<Event>, event: Event, index: nat, terminal: Terminal)
    ensures HasTerminal(events + [event], index, terminal) <==>
      HasTerminal(events, index, terminal) || (event.TerminalEvent? && event.index == index && event.terminal == terminal)
  {
    var all := events + [event];
    assert all[|events|] == event;
    if i :| 0 <= i < |events| && events[i].TerminalEvent? && events[i].index == index && events[i].terminal == terminal {
      assert all[i] == events[i];
    }
  }

  lemma WellOrderedAppended(events: seq<Event>, event: Event)
    ensures WellOrdered(events + [event]) <==> WellOrdered(events) && MayFollow(events, event)
  {
    var all := events + [event];
    assert all[..|events|] == events && all[|events|] == event;
    forall n | 0 <= n < |events| ensures all[..n] == events[..n] && all[n] == events[n] {}
    if WellOrdered(all) {
      forall n | 0 <= n < |events| ensures MayFollow(events[..n], events[n]) {
        assert MayFollow(all[..n], all[n]);
      }
    }
  }

  /** Events can be replayed exactly when they are well ordered, and replaying gives what each of them says. */
  lemma {:induction false} ReplayExactly(events: seq<Event>)
    ensures Replay(events).Some? <==> WellOrdered(events)
    ensures Replay(events).Some? ==> Tells(Replay(events).value, events)
  {
    if events != [] {
      var before, event := events[..|events| - 1], events[|events| - 1];
      assert events == before + [event];
      ReplayExactly(before);
      WellOrderedAppended(before, event);
      if Replay(before).Some? {
        MayFollowTells(Replay(before).value, before, event);
        forall index, kind
          ensures HasKind(events, index, kind) <==>
            (HasKind(before, index, kind) || (event.AttachmentEvent? && event.index == index && event.kind == kind))
        {
          KindAppended(before, event, index, kind);
        }
        forall index, terminal
          ensures HasTerminal(events, index, terminal) <==>
            (HasTerminal(before, index, terminal) ||
             (event.TerminalEvent? && event.index == index && event.terminal == terminal))
        {
          TerminalAppended(before, event, index, terminal);
        }
      }
    }
  }

  lemma MayFollowTells(reading: Reading, events: seq<Event>, event: Event)
    requires Tells(reading, events)
    ensures MayFollow(events, event) <==>
      match event
      case AttachmentEvent(index, _, _) => index !in reading.attachments
      case TerminalEvent(index, _, _) => index in reading.attachments && index !in reading.terminals
      case OtherEvent(_) => true
  {
    match event
    case AttachmentEvent(index, _, _) =>
      if index in reading.attachments {
        assert HasKind(events, index, reading.attachments[index]);
      }
    case TerminalEvent(index, _, _) =>
      if index in reading.attachments {
        assert HasKind(events, index, reading.attachments[index]);
      }
      if index in reading.terminals {
        assert HasTerminal(events, index, reading.terminals[index]);
      }
    case OtherEvent(_) =>
  }

  lemma IndexHasKind(events: seq<Event>, index: nat)
    ensures index in AttachmentIndices(events) <==> exists kind :: HasKind(events, index, kind)
  {
    if i :| 0 <= i < |events| && events[i].AttachmentEvent? && events[i].index == index {
      assert HasKind(events, index, events[i].kind);
    }
  }

  lemma ReplayIndices(events: seq<Event>)
    requires Replay(events).Some?
    ensures Replay(events).value.attachments.Keys == AttachmentIndices(events)
  {
    ReplayExactly(events);
    var attachments := Replay(events).value.attachments;
    forall index: nat ensures index in attachments.Keys <==> index in AttachmentIndices(events) {
      IndexHasKind(events, index);
      if index in attachments {
        assert HasKind(events, index, attachments[index]);
      }
    }
  }

  /** Whether the attachment's type, terminal state and child are consistent with each other. */
  predicate SlotConsistent(kind: AttachmentType, terminal: Option<Terminal>, hasChild: bool, unsupportedChild: bool) {
    && !(kind.EmbeddedType? && (terminal == Some(Payload) || terminal == Some(Reference)))
    && !(terminal == Some(Reference) && !kind.ReferenceType?)
    && !(terminal == Some(Payload) && kind.ReferenceType?)
    && !(kind.EmbeddedType? && !hasChild && !unsupportedChild && terminal != Some(Missing))
    && !(!kind.EmbeddedType? && hasChild)
    && !(!kind.EmbeddedType? && unsupportedChild)
    && !(!kind.EmbeddedType? && terminal.None?)
    && !((hasChild || unsupportedChild) && terminal.Some?)
  }

  predicate SlotFine(t: Tables, key: string, index: nat, reading: Reading)
    requires index in reading.attachments
  {
    SlotConsistent(reading.attachments[index],
                   if index in reading.terminals then Some(reading.terminals[index]) else None,
                   (key, index) in t.children, (key, index) in t.unsupported)
  }

  /** The events can be replayed and every attachment agrees with what occupies its slot. */
  predicate SlotsFine(t: Tables, candidate: Candidate) {
    && Replay(candidate.events).Some?
    && forall index :: index in Replay(candidate.events).value.attachments ==>
         SlotFine(t, candidate.itemKey, index, Replay(candidate.events).value)
  }

  // Trees.

  function OwnBytes(events: seq<Event>): nat {
    if events == [] then 0 else OwnBytes(events[..|events| - 1]) + events[|events| - 1].bytes
  }

  ghost predicate Ascending(slots: seq<Slot>) {
    forall i, j :: 0 <= i < j < |slots| ==> slots[i].index < slots[j].index
  }

  function SlotBytes(slots: seq<Slot>): nat {
    if slots == [] then 0
    else
      var last := slots[|slots| - 1];
      SlotBytes(slots[..|slots| - 1]) + (if last.Holding? then last.embedded.spooledBytes else 0)
  }

  /**
   The mail is the tree of its candidate: one slot for each attachment in ascending order, a slot
   holds exactly the child that owns it, every message carries the folder of the top of its tree, and
   its bytes are its own plus those of its children.
   */
  ghost predicate TreeOf(t: Tables, folder: string, mail: Mail)
    decreases mail
  {
    && mail.itemKey in t.byKey
    && mail.folder == folder
    && var candidate := t.byKey[mail.itemKey];
    && SlotsFine(t, candidate)
    && Ascending(mail.slots)
    && (set i | 0 <= i < |mail.slots| :: mail.slots[i].index) == AttachmentIndices(candidate.events)
    && mail.spooledBytes == OwnBytes(candidate.events) + SlotBytes(mail.slots)
    && forall i :: 0 <= i < |mail.slots| ==>
         var slot := mail.slots[i];
         && (slot.Holding? <==> (mail.itemKey, slot.index) in t.children)
         && (slot.Holding? ==>
              && slot.embedded.itemKey == t.children[(mail.itemKey, slot.index)].itemKey
              && TreeOf(t, folder, slot.embedded))
  }

  /** Every item key in the tree, with multiplicity. */
  function Keys(mail: Mail): multiset<string>
    decreases mail, |mail.slots| + 1
  {
    multiset{mail.itemKey} + SlotKeys(mail, |mail.slots|)
  }

  /** The keys below the first n slots. */
  function SlotKeys(mail: Mail, n: nat): multiset<string>
    requires n <= |mail.slots|
    decreases mail, n
  {
    if n == 0 then multiset{}
    else
      var last := mail.slots[n - 1];
      SlotKeys(mail, n - 1) + (if last.Holding? then Keys(last.embedded) else multiset{})
  }

  function ForestKeys(mails: seq<Mail>): multiset<string> {
    if mails == [] then multiset{}
    else ForestKeys(mails[..|mails| - 1]) + Keys(mails[|mails| - 1])
  }

  ghost function PathOf(t: Tables, key: string): seq<nat>
    requires Validated(t) && key in t.byKey
  {
    ParentPath(t, key);
    t.owners[key].path
  }

  /** The root of the tree a candidate belongs to, by following parents among the candidates. */
  ghost function Top(t: Tables, key: string): string
    requires Validated(t) && key in t.byKey
    decreases |PathOf(t, key)|
  {
    ParentPath(t, key);
    var parent := t.byKey[key].parentKey;
    if parent.Some? && parent.value in t.byKey then Top(t, parent.value) else key
  }

  ghost predicate Below(t: Tables, top: string, prefix: seq<nat>, key: string)
    requires Validated(t)
  {
    key in t.byKey && Top(t, key) == top && prefix <= PathOf(t, key)
  }

  /** Every key of a tree lies below its root: same top, and a path that extends the root's. */
  lemma {:induction false} TreeKeysBelow(t: Tables, folder: string, mail: Mail, key: string)
    requires Validated(t) && TreeOf(t, folder, mail) && key in Keys(mail)
    ensures Below(t, Top(t, mail.itemKey), PathOf(t, mail.itemKey), key)
    decreases mail, |mail.slots| + 1
  {
    if key != mail.itemKey {
      var i := SlotKeyBelow(t, folder, mail, |mail.slots|, key);
      BelowLonger(t, Top(t, mail.itemKey), PathOf(t, mail.itemKey), [mail.slots[i].index], key);
    }
  }

  lemma BelowLonger(t: Tables, top: string, prefix: seq<nat>, more: seq<nat>, key: string)
    requires Validated(t) && Below(t, top, prefix + more, key)
    ensures Below(t, top, prefix, key)
  {}

  lemma ChildBelow(t: Tables, folder: string, mail: Mail, i: nat)
    requires Validated(t) && TreeOf(t, folder, mail) && i < |mail.slots| && mail.slots[i].Holding?
    ensures var child := mail.slots[i].embedded;
      && TreeOf(t, folder, child)
      && child.itemKey in t.byKey
      && Top(t, child.itemKey) == Top(t, mail.itemKey)
      && PathOf(t, child.itemKey) == PathOf(t, mail.itemKey) + [mail.slots[i].index]
  {
    var child := mail.slots[i].embedded;
    assert ChildValid(t, mail.itemKey, mail.slots[i].index);
    ParentPath(t, child.itemKey);
  }

  lemma {:induction false} SlotKeyBelow(t: Tables, folder: string, mail: Mail, n: nat, key: string) returns (i: nat)
    requires Validated(t) && TreeOf(t, folder, mail)
    requires n <= |mail.slots| && key in SlotKeys(mail, n)
    ensures i < n
    ensures Below(t, Top(t, mail.itemKey), PathOf(t, mail.itemKey) + [mail.slots[i].index], key)
    decreases mail, n
  {
    if key in SlotKeys(mail, n - 1) {
      i := SlotKeyBelow(t, folder, mail, n - 1, key);
    } else {
      i := n - 1;
      ChildBelow(t, folder, mail, i);
      TreeKeysBelow(t, folder, mail.slots[i].embedded, key);
    }
  }

  /** No item occurs twice in one tree: subtrees of different slots have diverging paths. */
  lemma {:induction false} TreeKeysOnce(t: Tables, folder: string, mail: Mail, key: string)
    requires Validated(t) && TreeOf(t, folder, mail)
    ensures Keys(mail)[key] <= 1
    decreases mail, |mail.slots| + 1
  {
    SlotKeysOnce(t, folder, mail, |mail.slots|, key);
    if key == mail.itemKey && key in SlotKeys(mail, |mail.slots|) {
      var i := SlotKeyBelow(t, folder, mail, |mail.slots|, key);
      assert false;
    }
  }

  lemma {:induction false} SlotKeysOnce(t: Tables, folder: string, mail: Mail, n: nat, key: string)
    requires Validated(t) && TreeOf(t, folder, mail) && n <= |mail.slots|
    ensures SlotKeys(mail, n)[key] <= 1
    decreases mail, n
  {
    if n > 0 {
      SlotKeysOnce(t, folder, mail, n - 1, key);
      if mail.slots[n - 1].Holding? {
        ChildBelow(t, folder, mail, n - 1);
        TreeKeysOnce(t, folder, mail.slots[n - 1].embedded, key);
        if key in SlotKeys(mail, n - 1) && key in Keys(mail.slots[n - 1].embedded) {
          SlotsDiverge(t, folder, mail, n - 1, key);
        }
      }
    }
  }

  lemma SlotsDiverge(t: Tables, folder: string, mail: Mail, n: nat, key: string)
    requires Validated(t) && TreeOf(t, folder, mail) && n < |mail.slots| && mail.slots[n].Holding?
    requires key in SlotKeys(mail, n)
    ensures key !in Keys(mail.slots[n].embedded)
  {
    var depth := |PathOf(t, mail.itemKey)|;
    var i := SlotKeyBelow(t, folder, mail, n, key);
    assert PathOf(t, key)[depth] == mail.slots[i].index;
    ChildBelow(t, folder, mail, n);
    assert PathOf(t, mail.slots[n].embedded.itemKey)[depth] == mail.slots[n].index;
    if key in Keys(mail.slots[n].embedded) {
      TreeKeysBelow(t, folder, mail.slots[n].embedded, key);
      assert false;
    }
  }

  /** A whole tree: its root is a top, and its folder is the one recorded for the root. */
  ghost predicate WholeTree(t: Tables, mail: Mail)
    requires Validated(t)
  {
    && TreeOf(t, mail.folder, mail)
    && Top(t, mail.itemKey) == mail.itemKey
    && mail.folder == t.byKey[mail.itemKey].folder
  }

  /** The forest: trees whose roots are different tops. */
  ghost predicate Forest(t: Tables, mails: seq<Mail>)
    requires Validated(t)
  {
    && (forall i :: 0 <= i < |mails| ==> WholeTree(t, mails[i]))
    && (forall i, j :: 0 <= i < j < |mails| ==> mails[i].itemKey != mails[j].itemKey)
  }

  lemma {:induction false} ForestKeyTop(t: Tables, mails: seq<Mail>, key: string) returns (i: nat)
    requires Validated(t) && Forest(t, mails) && key in ForestKeys(mails)
    ensures i < |mails| && key in t.byKey && Top(t, key) == mails[i].itemKey
  {
    var n := |mails| - 1;
    if key in ForestKeys(mails[..n]) {
      i := ForestKeyTop(t, mails[..n], key);
    } else {
      i := n;
      TreeKeysBelow(t, mails[n].folder, mails[n], key);
    }
  }

  lemma ForestPrefix(t: Tables, mails: seq<Mail>, n: nat)
    requires Validated(t) && Forest(t, mails) && n <= |mails|
    ensures Forest(t, mails[..n])
  {}

  lemma TreesDisjoint(t: Tables, mails: seq<Mail>, key: string)
    requires Validated(t) && Forest(t, mails) && mails != []
    requires key in ForestKeys(mails[..|mails| - 1])
    ensures key !in Keys(mails[|mails| - 1])
  {
    var n := |mails| - 1;
    ForestPrefix(t, mails, n);
    var i := ForestKeyTop(t, mails[..n], key);
    assert mails[..n][i] == mails[i];
    if key in Keys(mails[n]) {
      TreeKeysBelow(t, mails[n].folder, mails[n], key);
      assert false;
    }
  }

  lemma {:induction false} ForestKeysOnce(t: Tables, mails: seq<Mail>, key: string)
    requires Validated(t) && Forest(t, mails)
    ensures ForestKeys(mails)[key] <= 1
    ensures key in ForestKeys(mails) ==> key in t.byKey
  {
    if mails != [] {
      var n := |mails| - 1;
      ForestPrefix(t, mails, n);
      ForestKeysOnce(t, mails[..n], key);
      TreeKeysOnce(t, mails[n].folder, mails[n], key);
      if key in Keys(mails[n]) {
        TreeKeysBelow(t, mails[n].folder, mails[n], key);
      }
      if key in ForestKeys(mails[..n]) {
        TreesDisjoint(t, mails, key);
      }
    }
  }

  lemma {:induction false} CountDecides<T>(m: multiset<T>, s: set<T>)
    requires forall x :: x in m ==> x in s
    requires forall x :: m[x] <= 1
    requires |m| == |s|
    ensures m == multiset(s)
  {
    if s != {} {
      if m == multiset{} {
        assert |m| == 0;
      } else {
        var x :| x in m;
        var rest := m - multiset{x};
        assert m == rest + multiset{x};
        assert forall y :: rest[y] == if y == x then 0 else m[y];
        CountDecides(rest, s - {x});
        assert multiset(s) == multiset(s - {x}) + multiset{x};
      }
    } else {
      assert |m| == 0;
      assert forall x :: x !in m;
    }
  }

  /** With the final count, every candidate is in the forest exactly once. */
  lemma ForestCoversOnce(t: Tables, mails: seq<Mail>)
    requires Validated(t) && Forest(t, mails)
    requires |ForestKeys(mails)| == |t.byKey|
    ensures ForestKeys(mails) == multiset(t.byKey.Keys)
  {
    forall key ensures ForestKeys(mails)[key] <= 1 && (key in ForestKeys(mails) ==> key in t.byKey.Keys) {
      ForestKeysOnce(t, mails, key);
    }
    CountDecides(ForestKeys(mails), t.byKey.Keys);
  }

  // Building one tree.

  ghost predicate IsLeast(s: set<nat>, x: nat) {
    x in s && forall y :: y in s ==> x <= y
  }

  lemma {:induction false} LeastExists(s: set<nat>) returns (least: nat)
    requires s != {}
    ensures IsLeast(s, least)
  {
    var x :| x in s;
    least := x;
    if s != {x} {
      var z := LeastExists(s - {x});
      least := if x <= z then x else z;
      forall y | y in s ensures least <= y {
        if y != x { assert y in s - {x}; }
      }
    }
  }

  /** The iteration order of an ordered map. */
  method AscendingKeys(keys: set<nat>) returns (r: seq<nat>)
    ensures Lists(r, keys)
  {
    r := [];
    var rest := keys;
    while rest != {}
      invariant forall i, j :: 0 <= i < j < |r| ==> r[i] < r[j]
      invariant forall i, x :: 0 <= i < |r| && x in rest ==> r[i] < x
      invariant forall x :: x in keys <==> x in r || x in rest
      decreases |rest|
    {
      ghost var least := LeastExists(rest);
      var x :| x in rest && forall y :: y in rest ==> x <= y;
      r := r + [x];
      rest := rest - {x};
    }
  }

  /** Replays the durable events of one candidate into its attachments and their terminal states. */
  method ReadEvents(candidate: Candidate) returns (r: Result<(Reading, nat), Error>)
    ensures r.Ok? ==> Replay(candidate.events) == Some(r.value.0)
    ensures r.Ok? ==> r.value.0.attachments.Keys == AttachmentIndices(candidate.events)
    ensures r.Ok? ==> r.value.1 == OwnBytes(candidate.events)
    ensures r.Ok? ==> OwnBytes(candidate.events) <= U64_MAX
    ensures r.Err? ==>
      || (r.error == SizeOverflow && OwnBytes(candidate.events) > U64_MAX)
      || (r.error == InvalidCandidate(candidate.itemKey) && Replay(candidate.events).None?)
  {
    var attachments: map<nat, AttachmentType> := map[];
    var terminals: map<nat, Terminal> := map[];
    var bytes: nat := 0;
    for i := 0 to |candidate.events|
      invariant Replay(candidate.events[..i]) == Some(Reading(attachments, terminals))
      invariant bytes == OwnBytes(candidate.events[..i]) && bytes <= U64_MAX
    {
      var event := candidate.events[i];
      assert candidate.events[..i + 1][..i] == candidate.events[..i];
      bytes := bytes + event.bytes;
      if bytes > U64_MAX {
        OwnBytesGrow(candidate.events, i + 1);
        return Err(SizeOverflow);
      }
      match event
      case AttachmentEvent(index, kind, _) =>
        if index in attachments {
          ReplayPrefix(candidate.events, i + 1);
          return Err(InvalidCandidate(candidate.itemKey));
        }
        attachments := attachments[index := kind];
      case TerminalEvent(index, terminal, _) =>
        if index in terminals || index !in attachments {
          ReplayPrefix(candidate.events, i + 1);
          return Err(InvalidCandidate(candidate.itemKey));
        }
        terminals := terminals[index := terminal];
      case OtherEvent(_) =>
    }
    assert candidate.events[..|candidate.events|] == candidate.events;
    ReplayIndices(candidate.events);
    return Ok((Reading(attachments, terminals), bytes));
  }

  lemma {:induction false} OwnBytesGrow(events: seq<Event>, n: nat)
    requires n <= |events|
    ensures OwnBytes(events[..n]) <= OwnBytes(events)
    decreases |events|
  {
    if n < |events| {
      assert events[..|events| - 1][..n] == events[..n];
      OwnBytesGrow(events[..|events| - 1], n);
    } else {
      assert events[..n] == events;
    }
  }

  /** Every message being built is strictly above this candidate. */
  ghost predicate Shallower(t: Tables, active: set<string>, candidate: Candidate)
    requires Validated(t) && candidate.itemKey in t.byKey
  {
    forall k :: k in active ==> k in t.byKey && |PathOf(t, k)| < |PathOf(t, candidate.itemKey)|
  }

  lemma ChildDeeper(t: Tables, active: set<string>, candidate: Candidate, index: nat)
    requires Validated(t) && candidate.itemKey in t.byKey && (candidate.itemKey, index) in t.children
    ensures var child := t.children[(candidate.itemKey, index)];
      && child.itemKey in t.byKey && t.byKey[child.itemKey] == child
      && |PathOf(t, child.itemKey)| == |PathOf(t, candidate.itemKey)| + 1
      && (Shallower(t, active, candidate) ==> Shallower(t, active + {candidate.itemKey}, child))
  {
    assert ChildValid(t, candidate.itemKey, index);
    ParentPath(t, t.children[(candidate.itemKey, index)].itemKey);
  }

  ghost predicate Buildable(t: Tables, candidate: Candidate) {
    Validated(t) && candidate.itemKey in t.byKey && t.byKey[candidate.itemKey] == candidate
  }

  ghost function Depth(t: Tables, candidate: Candidate): nat
    requires Buildable(t, candidate)
  {
    ParentPath(t, candidate.itemKey);
    MAX_EMBEDDED_MESSAGE_DEPTH - |PathOf(t, candidate.itemKey)|
  }

  // The bytes of a message with everything embedded in it.

  /** No attachment index is at or above this bound. */
  function IndexBound(events: seq<Event>): nat {
    if events == [] then 0
    else
      var before, last := IndexBound(events[..|events| - 1]), events[|events| - 1];
      if last.AttachmentEvent? && last.index >= before then last.index + 1 else before
  }

  lemma {:induction false} BelowBound(events: seq<Event>, index: nat)
    requires index in AttachmentIndices(events)
    ensures index < IndexBound(events)
  {
    var n := |events| - 1;
    var k :| 0 <= k < |events| && events[k].AttachmentEvent? && events[k].index == index;
    if k < n {
      assert events[..n][k] == events[k];
      BelowBound(events[..n], index);
    }
  }

  /** The bytes of a candidate and of everything embedded in it. */
  ghost function TotalBytes(t: Tables, key: string): nat
    requires Validated(t) && key in t.byKey
    decreases MAX_EMBEDDED_MESSAGE_DEPTH - |PathOf(t, key)|, 1, 0
  {
    ParentPath(t, key);
    OwnBytes(t.byKey[key].events) + EmbeddedBytes(t, key, IndexBound(t.byKey[key].events))
  }

  /** The bytes embedded in its attachments below index n. */
  ghost function EmbeddedBytes(t: Tables, key: string, n: nat): nat
    requires Validated(t) && key in t.byKey
    decreases MAX_EMBEDDED_MESSAGE_DEPTH - |PathOf(t, key)|, 0, n
  {
    if n == 0 then 0
    else
      EmbeddedBytes(t, key, n - 1) +
      (if n - 1 in AttachmentIndices(t.byKey[key].events) && (key, n - 1) in t.children then
         ChildInside(t, key, n - 1); TotalBytes(t, t.children[(key, n - 1)].itemKey)
       else 0)
  }

  lemma ChildInside(t: Tables, key: string, index: nat)
    requires Validated(t) && key in t.byKey && (key, index) in t.children
    ensures t.children[(key, index)].itemKey in t.byKey
    ensures |PathOf(t, key)| < |PathOf(t, t.children[(key, index)].itemKey)| <= MAX_EMBEDDED_MESSAGE_DEPTH
  {
    assert CandidateValid(t, key);
    ChildDeeper(t, {}, t.byKey[key], index);
    ParentPath(t, t.children[(key, index)].itemKey);
  }

  lemma {:induction false} EmbeddedBytesGrow(t: Tables, key: string, n: nat, m: nat)
    requires Validated(t) && key in t.byKey && n <= m
    ensures EmbeddedBytes(t, key, n) <= EmbeddedBytes(t, key, m)
    ensures (forall i :: n <= i < m ==> i !in AttachmentIndices(t.byKey[key].events)) ==>
      EmbeddedBytes(t, key, n) == EmbeddedBytes(t, key, m)
    decreases m
  {
    if n < m {
      EmbeddedBytesGrow(t, key, n, m - 1);
    }
  }

  /** Attachments before the next index in ascending order contribute nothing beyond the last one passed. */
  lemma NextEmbedded(t: Tables, key: string, from: nat, index: nat)
    requires Validated(t) && key in t.byKey && from <= index && index in AttachmentIndices(t.byKey[key].events)
    requires forall i :: from <= i < index ==> i !in AttachmentIndices(t.byKey[key].events)
    ensures (key, index) in t.children ==> t.children[(key, index)].itemKey in t.byKey
    ensures EmbeddedBytes(t, key, index + 1) == EmbeddedBytes(t, key, from) +
      (if (key, index) in t.children then TotalBytes(t, t.children[(key, index)].itemKey) else 0)
    ensures OwnBytes(t.byKey[key].events) + EmbeddedBytes(t, key, index + 1) <= TotalBytes(t, key)
  {
    EmbeddedBytesGrow(t, key, from, index);
    if (key, index) in t.children {
      ChildInside(t, key, index);
    }
    BelowBound(t.byKey[key].events, index);
    EmbeddedBytesGrow(t, key, index + 1, IndexBound(t.byKey[key].events));
  }

  /** Past the last attachment everything embedded has been counted. */
  lemma AllEmbedded(t: Tables, key: string, from: nat)
    requires Validated(t) && key in t.byKey
    requires forall i :: i in AttachmentIndices(t.byKey[key].events) ==> i < from
    ensures EmbeddedBytes(t, key, from) == EmbeddedBytes(t, key, IndexBound(t.byKey[key].events))
  {
    var bound := IndexBound(t.byKey[key].events);
    if from <= bound {
      EmbeddedBytesGrow(t, key, from, bound);
    } else {
      forall i | bound <= i < from ensures i !in AttachmentIndices(t.byKey[key].events) {
        if i in AttachmentIndices(t.byKey[key].events) {
          BelowBound(t.byKey[key].events, i);
        }
      }
      EmbeddedBytesGrow(t, key, bound, from);
    }
  }

  ghost predicate Oversized(t: Tables, key: string)
    requires Validated(t)
  {
    key in t.byKey && TotalBytes(t, key) > U64_MAX
  }

  /** An invalid candidate has events or attachments that are not fine; an overflow is that of some candidate's bytes. */
  ghost predicate Blames(t: Tables, e: Error)
    requires Validated(t)
  {
    && !e.Interrupted?
    && (e.InvalidCandidate? ==> e.key in t.byKey && !SlotsFine(t, t.byKey[e.key]))
    && (e.SizeOverflow? ==> exists key :: Oversized(t, key))
  }

  /** Builds the tree of one candidate. The set of items being built is how a cycle is detected. */
  method BuildMail(t: Tables, candidate: Candidate, active: set<string>, inherited: Option<string>)
    returns (r: Result<Mail, Error>)
    requires Buildable(t, candidate)
    ensures r.Ok? ==>
      && r.value.itemKey == candidate.itemKey
      && TreeOf(t, (match inherited case Some(f) => f case None => candidate.folder), r.value)
      && r.value.spooledBytes == TotalBytes(t, candidate.itemKey) <= U64_MAX
    ensures r.Err? && r.error.EmbeddedCycle? ==> !Shallower(t, active, candidate)
    ensures r.Err? ==> Blames(t, r.error)
    decreases Depth(t, candidate), 1
  {
    if candidate.itemKey in active {
      return Err(EmbeddedCycle(candidate.itemKey));
    }
    r := BuildMailInner(t, candidate, active, inherited);
  }

  method BuildMailInner(t: Tables, candidate: Candidate, active: set<string>, inherited: Option<string>)
    returns (r: Result<Mail, Error>)
    requires Buildable(t, candidate)
    ensures r.Ok? ==>
      && r.value.itemKey == candidate.itemKey
      && TreeOf(t, (match inherited case Some(f) => f case None => candidate.folder), r.value)
      && r.value.spooledBytes == TotalBytes(t, candidate.itemKey) <= U64_MAX
    ensures r.Err? && r.error.EmbeddedCycle? ==> !Shallower(t, active, candidate)
    ensures r.Err? ==> Blames(t, r.error)
    decreases Depth(t, candidate), 0
  {
    var folder := match inherited case Some(f) => f case None => candidate.folder;
    var reading := ReadEvents(candidate);
    ghost var key := candidate.itemKey;
    if reading.Err? {
      if reading.error.SizeOverflow? {
        assert Oversized(t, key);
      }
      return Err(reading.error);
    }
    var spooled: nat := reading.value.1;
    var indices := AscendingKeys(reading.value.0.attachments.Keys);
    var slots: seq<Slot> := [];
    for i := 0 to |indices|
      invariant |slots| == i && spooled <= U64_MAX
      invariant SlotsDone(t, candidate, folder, reading.value.0, indices, slots, spooled)
    {
      assert indices[i] in indices;
      var built := BuildSlot(t, candidate, indices[i], reading.value.0, active, folder);
      if built.Err? {
        return Err(built.error);
      }
      var slot := built.value;
      var bytes := if slot.Holding? then slot.embedded.spooledBytes else 0;
      SlotAdded(t, candidate, folder, reading.value.0, indices, slots, spooled, slot);
      if spooled + bytes > U64_MAX {
        assert Oversized(t, key);
        return Err(SizeOverflow);
      }
      spooled := spooled + bytes;
      slots := slots + [slot];
    }
    var mail := Mail(candidate.itemKey, folder, slots, spooled);
    MailBuilt(t, candidate, reading.value.0, mail, indices);
    return Ok(mail);
  }

  /** The slots of the first attachments, with the bytes so far. */
  ghost predicate SlotsDone(t: Tables, candidate: Candidate, folder: string, reading: Reading, indices: seq<nat>,
                            slots: seq<Slot>, spooled: nat)
    requires Buildable(t, candidate)
  {
    && |slots| <= |indices|
    && (forall k :: 0 <= k < |slots| ==>
         && slots[k].index == indices[k] && SlotBuilt(t, candidate.itemKey, folder, slots[k])
         && indices[k] in reading.attachments && SlotFine(t, candidate.itemKey, indices[k], reading))
    && spooled == OwnBytes(candidate.events) + SlotBytes(slots)
    && SlotBytes(slots) == EmbeddedBytes(t, candidate.itemKey, Passed(indices, |slots|))
  }

  ghost predicate Lists(indices: seq<nat>, all: set<nat>) {
    && (forall i, j :: 0 <= i < j < |indices| ==> indices[i] < indices[j])
    && (forall x :: x in indices <==> x in all)
  }

  lemma SlotAdded(t: Tables, candidate: Candidate, folder: string, reading: Reading, indices: seq<nat>,
                  slots: seq<Slot>, spooled: nat, slot: Slot)
    requires Buildable(t, candidate) && SlotsDone(t, candidate, folder, reading, indices, slots, spooled)
    requires Lists(indices, AttachmentIndices(candidate.events)) && |slots| < |indices|
    requires slot.index == indices[|slots|] && SlotBuilt(t, candidate.itemKey, folder, slot)
    requires slot.index in reading.attachments && SlotFine(t, candidate.itemKey, slot.index, reading)
    requires slot.Holding? ==>
      slot.embedded.itemKey in t.byKey && slot.embedded.spooledBytes == TotalBytes(t, slot.embedded.itemKey)
    ensures SlotsDone(t, candidate, folder, reading, indices, slots + [slot],
                      spooled + (if slot.Holding? then slot.embedded.spooledBytes else 0))
    ensures spooled + (if slot.Holding? then slot.embedded.spooledBytes else 0) <= TotalBytes(t, candidate.itemKey)
  {
    assert (slots + [slot])[..|slots|] == slots;
    PassedNext(indices, |slots|, AttachmentIndices(candidate.events));
    NextEmbedded(t, candidate.itemKey, Passed(indices, |slots|), slot.index);
  }

  lemma MailBuilt(t: Tables, candidate: Candidate, reading: Reading, mail: Mail, indices: seq<nat>)
    requires Buildable(t, candidate) && Replay(candidate.events) == Some(reading)
    requires reading.attachments.Keys == AttachmentIndices(candidate.events)
    requires Lists(indices, AttachmentIndices(candidate.events))
    requires mail.itemKey == candidate.itemKey && |mail.slots| == |indices|
    requires SlotsDone(t, candidate, mail.folder, reading, indices, mail.slots, mail.spooledBytes)
    ensures TreeOf(t, mail.folder, mail) && mail.spooledBytes == TotalBytes(t, candidate.itemKey)
  {
    forall index | index in reading.attachments ensures SlotFine(t, candidate.itemKey, index, reading) {
      assert index in indices;
    }
    SlotsMakeTree(t, candidate, mail.folder, mail, indices);
    PassedAll(indices, AttachmentIndices(candidate.events));
    AllEmbedded(t, candidate.itemKey, Passed(indices, |indices|));
  }

  /** The bound below which every index has been passed after n of the indices. */
  function Passed(indices: seq<nat>, n: nat): nat
    requires n <= |indices|
  {
    if n == 0 then 0 else indices[n - 1] + 1
  }

  lemma PassedNext(indices: seq<nat>, n: nat, all: set<nat>)
    requires n < |indices| && Lists(indices, all)
    ensures Passed(indices, n) <= indices[n] && indices[n] in all
    ensures forall i :: Passed(indices, n) <= i < indices[n] ==> i !in all
  {
    forall i | Passed(indices, n) <= i < indices[n] ensures i !in all {
      forall k | 0 <= k < |indices| ensures indices[k] != i {
        assert k < n ==> indices[k] <= indices[n - 1];
      }
      assert i !in indices;
    }
  }

  lemma PassedAll(indices: seq<nat>, all: set<nat>)
    requires Lists(indices, all)
    ensures forall i :: i in all ==> i < Passed(indices, |indices|)
  {
    forall i | i in all ensures i < Passed(indices, |indices|) {
      var k :| 0 <= k < |indices| && indices[k] == i;
    }
  }

  ghost predicate SlotBuilt(t: Tables, key: string, folder: string, slot: Slot) {
    && (slot.Holding? <==> (key, slot.index) in t.children)
    && (slot.Holding? ==>
         && slot.embedded.itemKey == t.children[(key, slot.index)].itemKey
         && TreeOf(t, folder, slot.embedded))
  }

  lemma SlotsMakeTree(t: Tables, candidate: Candidate, folder: string, mail: Mail, indices: seq<nat>)
    requires Buildable(t, candidate) && SlotsFine(t, candidate)
    requires mail.itemKey == candidate.itemKey && mail.folder == folder && |mail.slots| == |indices|
    requires Lists(indices, AttachmentIndices(candidate.events))
    requires forall k :: 0 <= k < |mail.slots| ==>
      mail.slots[k].index == indices[k] && SlotBuilt(t, candidate.itemKey, folder, mail.slots[k])
    requires mail.spooledBytes == OwnBytes(candidate.events) + SlotBytes(mail.slots)
    ensures TreeOf(t, folder, mail)
  {
    var slotIndices := set i | 0 <= i < |mail.slots| :: mail.slots[i].index;
    forall x ensures x in slotIndices <==> x in indices {
      if x in indices {
        var k :| 0 <= k < |indices| && indices[k] == x;
        assert mail.slots[k].index == x;
      }
    }
  }

  /** One iteration over the attachments: check it against its terminal state and embed its child. */
  method BuildSlot(t: Tables, candidate: Candidate, index: nat, reading: Reading, active: set<string>, folder: string)
    returns (r: Result<Slot, Error>)
    requires Buildable(t, candidate) && index in reading.attachments && Replay(candidate.events) == Some(reading)
    ensures r.Ok? ==> r.value.index == index && SlotBuilt(t, candidate.itemKey, folder, r.value)
    ensures r.Ok? ==> SlotFine(t, candidate.itemKey, index, reading)
    ensures r.Ok? && r.value.Holding? ==>
      r.value.embedded.itemKey in t.byKey && r.value.embedded.spooledBytes == TotalBytes(t, r.value.embedded.itemKey)
    ensures r.Err? && r.error.EmbeddedCycle? ==> !Shallower(t, active, candidate)
    ensures r.Err? ==> Blames(t, r.error)
    decreases Depth(t, candidate), 0, index
  {
    var hasChild := (candidate.itemKey, index) in t.children;
    var unsupportedChild := (candidate.itemKey, index) in t.unsupported;
    var terminal := if index in reading.terminals then Some(reading.terminals[index]) else None;
    if !SlotConsistent(reading.attachments[index], terminal, hasChild, unsupportedChild) {
      return Err(InvalidCandidate(candidate.itemKey));
    }
    if !hasChild {
      return Ok(Vacant(index));
    }
    ChildDeeper(t, active, candidate, index);
    var embedded := BuildMail(t, t.children[(candidate.itemKey, index)], active + {candidate.itemKey}, Some(folder));
    if embedded.Err? {
      return Err(embedded.error);
    }
    return Ok(Holding(index, embedded.value));
  }

  // The whole assembly.

  ghost predicate DistinctKeys(candidates: seq<Candidate>) {
    forall i, j :: 0 <= i < j < |candidates| ==> candidates[i].itemKey != candidates[j].itemKey
  }

  /** Records collected into a map: the last record of a key wins. */
  function CandidateMap(candidates: seq<Candidate>): map<string, Candidate> {
    if candidates == [] then map[]
    else
      var last := candidates[|candidates| - 1];
      CandidateMap(candidates[..|candidates| - 1])[last.itemKey := last]
  }

  function OwnerMap(ownerships: seq<Ownership>): map<string, Ownership> {
    if ownerships == [] then map[]
    else
      var last := ownerships[|ownerships| - 1];
      OwnerMap(ownerships[..|ownerships| - 1])[last.itemKey := last]
  }

  lemma {:induction false} CandidateMapFrom(candidates: seq<Candidate>, key: string)
    requires key in CandidateMap(candidates)
    ensures CandidateMap(candidates)[key] in candidates && CandidateMap(candidates)[key].itemKey == key
  {
    var n := |candidates| - 1;
    if candidates[n].itemKey != key {
      CandidateMapFrom(candidates[..n], key);
    }
  }

  lemma {:induction false} CandidateMapHas(candidates: seq<Candidate>, i: nat)
    requires DistinctKeys(candidates) && i < |candidates|
    ensures candidates[i].itemKey in CandidateMap(candidates)
    ensures CandidateMap(candidates)[candidates[i].itemKey] == candidates[i]
  {
    var n := |candidates| - 1;
    if i < n {
      CandidateMapHas(candidates[..n], i);
    }
  }

  lemma {:induction false} CandidateMapSize(candidates: seq<Candidate>)
    requires DistinctKeys(candidates)
    ensures |CandidateMap(candidates)| == |candidates|
  {
    if candidates != [] {
      var n := |candidates| - 1;
      CandidateMapSize(candidates[..n]);
      if candidates[n].itemKey in CandidateMap(candidates[..n]) {
        CandidateMapFrom(candidates[..n], candidates[n].itemKey);
        assert false;
      }
    }
  }

  lemma CandidateMapEntries(candidates: seq<Candidate>)
    requires DistinctKeys(candidates)
    ensures forall i :: 0 <= i < |candidates| ==>
      candidates[i].itemKey in CandidateMap(candidates) && CandidateMap(candidates)[candidates[i].itemKey] == candidates[i]
    ensures forall k :: k in CandidateMap(candidates) ==>
      CandidateMap(candidates)[k] in candidates && CandidateMap(candidates)[k].itemKey == k
    ensures |CandidateMap(candidates)| == |candidates|
  {
    forall i | 0 <= i < |candidates|
      ensures candidates[i].itemKey in CandidateMap(candidates) && CandidateMap(candidates)[candidates[i].itemKey] == candidates[i]
    {
      CandidateMapHas(candidates, i);
    }
    forall k | k in CandidateMap(candidates)
      ensures CandidateMap(candidates)[k] in candidates && CandidateMap(candidates)[k].itemKey == k
    {
      CandidateMapFrom(candidates, k);
    }
    CandidateMapSize(candidates);
  }

  lemma {:induction false} OwnerMapEntries(ownerships: seq<Ownership>)
    ensures forall k :: k in OwnerMap(ownerships) ==>
      OwnerMap(ownerships)[k] in ownerships && OwnerMap(ownerships)[k].itemKey == k
  {
    if ownerships != [] {
      OwnerMapEntries(ownerships[..|ownerships| - 1]);
    }
  }

  ghost predicate OwnershipsValid(ownerships: seq<Ownership>, owners: map<string, Ownership>) {
    && (forall i :: 0 <= i < |ownerships| ==> WellOwned(ownerships[i], owners))
    && SlotsUnique(ownerships)
  }

  /** Each ownership record is valid, and no two of them claim the same attachment slot. */
  method ValidateAll(ownerships: seq<Ownership>, owners: map<string, Ownership>, interrupts: bool) returns (r: Result<(), Error>)
    ensures r.Ok? ==> forall i :: 0 <= i < |ownerships| ==> WellOwned(ownerships[i], owners)
    ensures r.Ok? ==> SlotsUnique(ownerships)
    ensures r.Err? ==>
      (r.error.Interrupted? && interrupts) || (r.error.InvalidCandidate? && !OwnershipsValid(ownerships, owners))
  {
    var claimed: set<(string, nat)> := {};
    for i := 0 to |ownerships|
      invariant forall k :: 0 <= k < i ==> WellOwned(ownerships[k], owners)
      invariant forall k, j :: 0 <= k < j < i && ownerships[k].parentKey.Some? ==>
        (ownerships[k].parentKey, ownerships[k].parentIndex) != (ownerships[j].parentKey, ownerships[j].parentIndex)
      invariant forall k :: 0 <= k < i && ownerships[k].parentKey.Some? && ownerships[k].parentIndex.Some? ==>
        (ownerships[k].parentKey.value, ownerships[k].parentIndex.value) in claimed
      invariant forall slot :: slot in claimed ==>
        exists k :: 0 <= k < i && ownerships[k].parentKey == Some(slot.0) && ownerships[k].parentIndex == Some(slot.1)
    {
      var raised := *;
      if raised && interrupts {
        return Err(Interrupted);
      }
      var o := ownerships[i];
      var valid := ValidateOwnership(o, owners);
      if valid.Err? {
        return Err(valid.error);
      }
      if o.parentKey.Some? && o.parentIndex.Some? {
        var slot := (o.parentKey.value, o.parentIndex.value);
        if slot in claimed {
          return Err(InvalidCandidate(o.itemKey));
        }
        claimed := claimed + {slot};
      }
    }
    return Ok(());
  }

  /** No two records claim one attachment slot. */
  ghost predicate SlotsUnique(ownerships: seq<Ownership>) {
    forall i, j :: 0 <= i < j < |ownerships| && ownerships[i].parentKey.Some? ==>
      (ownerships[i].parentKey, ownerships[i].parentIndex) != (ownerships[j].parentKey, ownerships[j].parentIndex)
  }

  /** The candidate sits below a writable parent. */
  predicate Embedded(candidate: Candidate, owners: map<string, Ownership>) {
    && candidate.parentKey.Some? && candidate.parentIndex.Some?
    && candidate.parentKey.value in owners && owners[candidate.parentKey.value].writable
  }

  /** Each embedded candidate is the child of its own slot: none displaced another. */
  ghost predicate ChildrenExact(t: Tables, candidates: seq<Candidate>) {
    forall i :: 0 <= i < |candidates| && Embedded(candidates[i], t.owners) ==>
      var slot := (candidates[i].parentKey.value, candidates[i].parentIndex.value);
      slot in t.children && t.children[slot] == candidates[i]
  }

  lemma SlotHeldOnce(t: Tables, ownerships: seq<Ownership>, a: Candidate, b: Candidate)
    requires t.owners == OwnerMap(ownerships) && SlotsUnique(ownerships)
    requires Consistent(a, t.owners) && Consistent(b, t.owners)
    requires a.parentKey.Some? && a.parentKey == b.parentKey && a.parentIndex == b.parentIndex
    ensures a.itemKey == b.itemKey
  {
    OwnerMapEntries(ownerships);
    var i :| 0 <= i < |ownerships| && ownerships[i] == t.owners[a.itemKey];
    var j :| 0 <= j < |ownerships| && ownerships[j] == t.owners[b.itemKey];
    assert i == j;
  }

  lemma ChildrenAreExact(t: Tables, candidates: seq<Candidate>, ownerships: seq<Ownership>)
    requires DistinctKeys(candidates) && t.owners == OwnerMap(ownerships) && SlotsUnique(ownerships)
    requires forall i :: 0 <= i < |candidates| ==> Consistent(candidates[i], t.owners)
    requires forall i :: 0 <= i < |candidates| && Embedded(candidates[i], t.owners) ==>
      (candidates[i].parentKey.value, candidates[i].parentIndex.value) in t.children
    requires forall slot :: slot in t.children ==>
      && t.children[slot] in candidates
      && t.children[slot].parentKey == Some(slot.0) && t.children[slot].parentIndex == Some(slot.1)
    ensures ChildrenExact(t, candidates)
  {
    forall i | 0 <= i < |candidates| && Embedded(candidates[i], t.owners)
      ensures t.children[(candidates[i].parentKey.value, candidates[i].parentIndex.value)] == candidates[i]
    {
      var held := t.children[(candidates[i].parentKey.value, candidates[i].parentIndex.value)];
      var j :| 0 <= j < |candidates| && candidates[j] == held;
      SlotHeldOnce(t, ownerships, candidates[i], candidates[j]);
    }
  }

  predicate Consistent(candidate: Candidate, owners: map<string, Ownership>) {
    && candidate.itemKey in owners
    && owners[candidate.itemKey].writable
    && owners[candidate.itemKey].parentKey == candidate.parentKey
    && owners[candidate.itemKey].parentIndex == candidate.parentIndex
  }

  /** The children of writable parents by slot: the last candidate of a slot wins. */
  function ChildTable(candidates: seq<Candidate>, owners: map<string, Ownership>): map<(string, nat), Candidate> {
    if candidates == [] then map[]
    else
      var before, last := ChildTable(candidates[..|candidates| - 1], owners), candidates[|candidates| - 1];
      if Embedded(last, owners) then before[(last.parentKey.value, last.parentIndex.value) := last] else before
  }

  lemma {:induction false} ChildTableEntries(candidates: seq<Candidate>, owners: map<string, Ownership>)
    ensures forall i :: 0 <= i < |candidates| && Embedded(candidates[i], owners) ==>
      (candidates[i].parentKey.value, candidates[i].parentIndex.value) in ChildTable(candidates, owners)
    ensures forall slot :: slot in ChildTable(candidates, owners) ==>
      var child := ChildTable(candidates, owners)[slot];
      child in candidates && child.parentKey == Some(slot.0) && child.parentIndex == Some(slot.1)
  {
    if candidates != [] {
      var n := |candidates| - 1;
      ChildTableEntries(candidates[..n], owners);
      assert candidates == candidates[..n] + [candidates[n]];
    }
  }

  ghost predicate AllConsistent(candidates: seq<Candidate>, owners: map<string, Ownership>) {
    forall i :: 0 <= i < |candidates| ==> Consistent(candidates[i], owners)
  }

  method CollectChildren(candidates: seq<Candidate>, owners: map<string, Ownership>, interrupts: bool)
    returns (r: Result<map<(string, nat), Candidate>, Error>)
    ensures r.Ok? ==> AllConsistent(candidates, owners) && r.value == ChildTable(candidates, owners)
    ensures r.Err? ==>
      (r.error.Interrupted? && interrupts) || (r.error.InvalidCandidate? && !AllConsistent(candidates, owners))
  {
    var children: map<(string, nat), Candidate> := map[];
    for i := 0 to |candidates|
      invariant forall k :: 0 <= k < i ==> Consistent(candidates[k], owners)
      invariant children == ChildTable(candidates[..i], owners)
    {
      var raised := *;
      if raised && interrupts {
        return Err(Interrupted);
      }
      var candidate := candidates[i];
      if !Consistent(candidate, owners) {
        return Err(InvalidCandidate(candidate.itemKey));
      }
      assert candidates[..i + 1][..i] == candidates[..i];
      if candidate.parentKey.Some? && candidate.parentIndex.Some? {
        var parent := candidate.parentKey.value;
        if !(parent in owners && owners[parent].writable) {
          continue;
        }
        children := children[(parent, candidate.parentIndex.value) := candidate];
      }
    }
    assert candidates[..|candidates|] == candidates;
    return Ok(children);
  }

  /** An unwritable record that occupies a slot of a writable parent. */
  predicate Occupies(o: Ownership, owners: map<string, Ownership>) {
    && !o.writable && o.parentKey.Some? && o.parentIndex.Some?
    && o.parentKey.value in owners && owners[o.parentKey.value].writable
  }

  function UnsupportedSlots(ownerships: seq<Ownership>, owners: map<string, Ownership>): set<(string, nat)> {
    set k | 0 <= k < |ownerships| && Occupies(ownerships[k], owners)
      :: (ownerships[k].parentKey.value, ownerships[k].parentIndex.value)
  }

  method CollectUnsupported(ownerships: seq<Ownership>, owners: map<string, Ownership>, interrupts: bool)
    returns (r: Result<set<(string, nat)>, Error>)
    ensures r.Ok? ==> r.value == UnsupportedSlots(ownerships, owners)
    ensures r.Err? ==> r.error.Interrupted? && interrupts
  {
    var unsupported: set<(string, nat)> := {};
    for n := 0 to |ownerships|
      invariant unsupported == set k | 0 <= k < n && Occupies(ownerships[k], owners)
        :: (ownerships[k].parentKey.value, ownerships[k].parentIndex.value)
    {
      var o := ownerships[n];
      var raised := *;
      if !o.writable && raised && interrupts {
        return Err(Interrupted);
      }
      if Occupies(o, owners) {
        unsupported := unsupported + {(o.parentKey.value, o.parentIndex.value)};
      }
    }
    return Ok(unsupported);
  }

  /** The tables an assembly works with. */
  function TablesOf(candidates: seq<Candidate>, ownerships: seq<Ownership>): Tables {
    var owners := OwnerMap(ownerships);
    Tables(CandidateMap(candidates), owners, ChildTable(candidates, owners), UnsupportedSlots(ownerships, owners))
  }

  lemma OwnersValidated(t: Tables, ownerships: seq<Ownership>, key: string)
    requires t.owners == OwnerMap(ownerships)
    requires forall i :: 0 <= i < |ownerships| ==> WellOwned(ownerships[i], t.owners)
    ensures OwnerValid(t, key)
  {
    OwnerMapEntries(ownerships);
    if key in t.owners {
      var i :| 0 <= i < |ownerships| && ownerships[i] == t.owners[key];
      assert WellOwned(ownerships[i], t.owners);
    }
  }

  lemma CandidatesValidated(t: Tables, candidates: seq<Candidate>, key: string)
    requires DistinctKeys(candidates) && t.byKey == CandidateMap(candidates)
    requires forall i :: 0 <= i < |candidates| ==> Consistent(candidates[i], t.owners)
    ensures CandidateValid(t, key)
  {
    CandidateMapEntries(candidates);
    if key in t.byKey {
      var i :| 0 <= i < |candidates| && candidates[i] == t.byKey[key];
      assert Consistent(candidates[i], t.owners);
    }
  }

  lemma ChildrenValidated(t: Tables, candidates: seq<Candidate>, parent: string, index: nat)
    requires DistinctKeys(candidates) && t.byKey == CandidateMap(candidates)
    requires forall slot :: slot in t.children ==>
      && t.children[slot] in candidates
      && t.children[slot].parentKey == Some(slot.0) && t.children[slot].parentIndex == Some(slot.1)
    ensures ChildValid(t, parent, index)
  {
    CandidateMapEntries(candidates);
    var slot := (parent, index);
    if slot in t.children {
      var i :| 0 <= i < |candidates| && candidates[i] == t.children[slot];
    }
  }

  lemma TablesValidated(t: Tables, candidates: seq<Candidate>, ownerships: seq<Ownership>)
    requires DistinctKeys(candidates)
    requires t.byKey == CandidateMap(candidates) && t.owners == OwnerMap(ownerships)
    requires forall i :: 0 <= i < |ownerships| ==> WellOwned(ownerships[i], t.owners)
    requires forall i :: 0 <= i < |candidates| ==> Consistent(candidates[i], t.owners)
    requires forall slot :: slot in t.children ==>
      && t.children[slot] in candidates
      && t.children[slot].parentKey == Some(slot.0) && t.children[slot].parentIndex == Some(slot.1)
    ensures Validated(t)
  {
    forall key ensures OwnerValid(t, key) { OwnersValidated(t, ownerships, key); }
    forall key ensures CandidateValid(t, key) { CandidatesValidated(t, candidates, key); }
    forall parent, index ensures ChildValid(t, parent, index) { ChildrenValidated(t, candidates, parent, index); }
  }

  // The final count.

  function CountTree(mail: Mail): nat
    decreases mail, |mail.slots| + 1
  {
    1 + CountSlots(mail, |mail.slots|)
  }

  function CountSlots(mail: Mail, n: nat): nat
    requires n <= |mail.slots|
    decreases mail, n
  {
    if n == 0 then 0
    else CountSlots(mail, n - 1) + (if mail.slots[n - 1].Holding? then CountTree(mail.slots[n - 1].embedded) else 0)
  }

  lemma {:induction false} CountTreeIsKeys(mail: Mail)
    ensures CountTree(mail) == |Keys(mail)|
    decreases mail, |mail.slots| + 1
  {
    CountSlotsIsKeys(mail, |mail.slots|);
  }

  lemma {:induction false} CountSlotsIsKeys(mail: Mail, n: nat)
    requires n <= |mail.slots|
    ensures CountSlots(mail, n) == |SlotKeys(mail, n)|
    decreases mail, n
  {
    if n > 0 {
      CountSlotsIsKeys(mail, n - 1);
      if mail.slots[n - 1].Holding? {
        CountTreeIsKeys(mail.slots[n - 1].embedded);
      }
    }
  }

  method CountMail(mails: seq<Mail>) returns (n: nat)
    ensures n == |ForestKeys(mails)|
  {
    n := 0;
    for i := 0 to |mails|
      invariant n == |ForestKeys(mails[..i])|
    {
      assert mails[..i + 1][..i] == mails[..i];
      CountTreeIsKeys(mails[i]);
      n := n + CountTree(mails[i]);
    }
    assert mails[..|mails|] == mails;
  }

  predicate IsRoot(candidate: Candidate, byKey: map<string, Candidate>) {
    candidate.parentKey.None? || candidate.parentKey.value !in byKey
  }

  ghost predicate KeyAmong(candidates: seq<Candidate>, n: nat, key: string)
    requires n <= |candidates|
  {
    exists j :: 0 <= j < n && candidates[j].itemKey == key
  }

  /** These trees were built from some of the first n candidates. */
  ghost predicate BuiltFrom(candidates: seq<Candidate>, n: nat, mails: seq<Mail>)
    requires n <= |candidates|
  {
    forall k :: 0 <= k < |mails| ==> KeyAmong(candidates, n, mails[k].itemKey)
  }

  lemma RootAdded(t: Tables, candidates: seq<Candidate>, n: nat, mails: seq<Mail>, mail: Mail)
    requires DistinctKeys(candidates) && Validated(t) && n < |candidates|
    requires Forest(t, mails) && BuiltFrom(candidates, n, mails)
    requires mail.itemKey == candidates[n].itemKey && WholeTree(t, mail)
    ensures Forest(t, mails + [mail]) && BuiltFrom(candidates, n + 1, mails + [mail])
  {
    forall k | 0 <= k < |mails|
      ensures mails[k].itemKey != mail.itemKey && KeyAmong(candidates, n + 1, mails[k].itemKey)
    {
      assert KeyAmong(candidates, n, mails[k].itemKey);
    }
    assert KeyAmong(candidates, n + 1, mail.itemKey);
    forall k | 0 <= k < |mails + [mail]| ensures KeyAmong(candidates, n + 1, (mails + [mail])[k].itemKey) {
      if k < |mails| {
        assert (mails + [mail])[k] == mails[k];
      }
    }
  }

  /** Every root among the first n candidates has its tree. */
  ghost predicate RootsBuilt(t: Tables, candidates: seq<Candidate>, n: nat, mails: seq<Mail>)
    requires n <= |candidates|
  {
    forall i :: 0 <= i < n && IsRoot(candidates[i], t.byKey) ==> RootOf(mails, candidates[i].itemKey)
  }

  /** The keys of the candidates that are roots, in order. */
  function RootKeys(candidates: seq<Candidate>, byKey: map<string, Candidate>): seq<string> {
    if candidates == [] then []
    else
      var last := candidates[|candidates| - 1];
      RootKeys(candidates[..|candidates| - 1], byKey) +
      (if last.parentKey.Some? && last.parentKey.value in byKey then [] else [last.itemKey])
  }

  function MailKeys(mails: seq<Mail>): (r: seq<string>)
    ensures |r| == |mails|
    ensures forall i :: 0 <= i < |mails| ==> r[i] == mails[i].itemKey
  {
    seq(|mails|, i requires 0 <= i < |mails| => mails[i].itemKey)
  }

  ghost predicate Sized(t: Tables, mails: seq<Mail>)
    requires Validated(t)
  {
    forall k :: 0 <= k < |mails| ==> mails[k].itemKey in t.byKey && TotalBytes(t, mails[k].itemKey) <= U64_MAX
  }

  ghost predicate RootOf(mails: seq<Mail>, key: string) {
    exists k :: 0 <= k < |mails| && mails[k].itemKey == key
  }

  lemma KeptBuilt(t: Tables, candidates: seq<Candidate>, n: nat, mails: seq<Mail>, mail: Mail)
    requires n < |candidates| && RootsBuilt(t, candidates, n, mails) && mail.itemKey == candidates[n].itemKey
    ensures RootsBuilt(t, candidates, n + 1, mails + [mail])
  {
    assert (mails + [mail])[|mails|] == mail;
    forall i | 0 <= i < n && IsRoot(candidates[i], t.byKey) ensures RootOf(mails + [mail], candidates[i].itemKey) {
      var k :| 0 <= k < |mails| && mails[k].itemKey == candidates[i].itemKey;
      assert (mails + [mail])[k] == mails[k];
    }
  }

  /** The roots among the first n candidates have their trees, in order. */
  ghost predicate RootsDone(t: Tables, candidates: seq<Candidate>, n: nat, mails: seq<Mail>)
    requires Validated(t) && n <= |candidates|
  {
    && Forest(t, mails) && BuiltFrom(candidates, n, mails)
    && RootsBuilt(t, candidates, n, mails) && Sized(t, mails)
    && MailKeys(mails) == RootKeys(candidates[..n], t.byKey)
  }

  lemma RootsSkip(t: Tables, candidates: seq<Candidate>, n: nat, mails: seq<Mail>)
    requires Validated(t) && n < |candidates| && RootsDone(t, candidates, n, mails) && !IsRoot(candidates[n], t.byKey)
    ensures RootsDone(t, candidates, n + 1, mails)
  {
    assert candidates[..n + 1][..n] == candidates[..n];
  }

  lemma RootsAdd(t: Tables, candidates: seq<Candidate>, n: nat, mails: seq<Mail>, mail: Mail)
    requires DistinctKeys(candidates) && Validated(t) && n < |candidates| && RootsDone(t, candidates, n, mails)
    requires IsRoot(candidates[n], t.byKey) && mail.itemKey == candidates[n].itemKey
    requires WholeTree(t, mail) && TotalBytes(t, mail.itemKey) <= U64_MAX
    ensures RootsDone(t, candidates, n + 1, mails + [mail])
  {
    RootAdded(t, candidates, n, mails, mail);
    KeptBuilt(t, candidates, n, mails, mail);
    assert candidates[..n + 1][..n] == candidates[..n];
  }

  /** The tree of one root, under its own folder. */
  method BuildRoot(t: Tables, candidates: seq<Candidate>, i: nat) returns (r: Result<Mail, Error>)
    requires DistinctKeys(candidates) && t.byKey == CandidateMap(candidates) && Validated(t)
    requires i < |candidates| && IsRoot(candidates[i], t.byKey)
    ensures r.Ok? ==>
      && WholeTree(t, r.value) && r.value.itemKey == candidates[i].itemKey
      && TotalBytes(t, r.value.itemKey) <= U64_MAX
    ensures r.Err? ==> !r.error.EmbeddedCycle? && Blames(t, r.error)
  {
    CandidateMapEntries(candidates);
    assert Shallower(t, {}, candidates[i]);
    r := BuildMail(t, candidates[i], {}, None);
  }

  method BuildRoots(t: Tables, candidates: seq<Candidate>, interrupts: bool) returns (r: Result<seq<Mail>, Error>)
    requires DistinctKeys(candidates) && t.byKey == CandidateMap(candidates) && Validated(t)
    ensures r.Ok? ==> Forest(t, r.value) && RootsBuilt(t, candidates, |candidates|, r.value) && Sized(t, r.value)
    ensures r.Ok? ==> MailKeys(r.value) == RootKeys(candidates, t.byKey)
    ensures r.Err? ==> !r.error.EmbeddedCycle? && ((r.error.Interrupted? && interrupts) || Blames(t, r.error))
  {
    var output: seq<Mail> := [];
    for i := 0 to |candidates|
      invariant RootsDone(t, candidates, i, output)
    {
      if !IsRoot(candidates[i], t.byKey) {
        RootsSkip(t, candidates, i, output);
        continue;
      }
      var raised := *;
      if raised && interrupts {
        return Err(Interrupted);
      }
      var mail := BuildRoot(t, candidates, i);
      if mail.Err? {
        return Err(mail.error);
      }
      RootsAdd(t, candidates, i, output, mail.value);
      output := output + [mail.value];
    }
    assert candidates[..|candidates|] == candidates;
    return Ok(output);
  }

  // When an assembly succeeds.

  /** The candidate's parent, if it is a candidate too, has the attachment the candidate belongs to. */
  ghost predicate Attached(t: Tables, candidate: Candidate) {
    candidate.parentKey.Some? && candidate.parentKey.value in t.byKey ==>
      && candidate.parentIndex.Some?
      && candidate.parentIndex.value in AttachmentIndices(t.byKey[candidate.parentKey.value].events)
  }

  ghost predicate ContentsValid(t: Tables, candidates: seq<Candidate>) {
    forall i :: 0 <= i < |candidates| ==> SlotsFine(t, candidates[i]) && Attached(t, candidates[i])
  }

  /** No candidate has more bytes, with everything embedded in it, than 64 bits can count. */
  ghost predicate SizesValid(t: Tables)
    requires Validated(t)
  {
    forall key :: !Oversized(t, key)
  }

  ghost predicate RecordsValid(candidates: seq<Candidate>, ownerships: seq<Ownership>) {
    OwnershipsValid(ownerships, OwnerMap(ownerships)) && AllConsistent(candidates, OwnerMap(ownerships))
  }

  // Valid contents, read off the records.

  /** A candidate occupies the attachment slot. */
  ghost predicate HasChild(candidates: seq<Candidate>, key: string, index: nat) {
    exists j :: 0 <= j < |candidates| && candidates[j].parentKey == Some(key) && candidates[j].parentIndex == Some(index)
  }

  /** An item that cannot be written occupies it. */
  ghost predicate HasUnsupported(ownerships: seq<Ownership>, key: string, index: nat) {
    exists j :: 0 <= j < |ownerships| && !ownerships[j].writable
      && ownerships[j].parentKey == Some(key) && ownerships[j].parentIndex == Some(index)
  }

  /**
   An embedded attachment is occupied and has no end of its own, or ends as missing; a reference ends as one or
   as missing, anything else with a payload or as missing, and neither is occupied.
   */
  ghost predicate SlotTrue(candidates: seq<Candidate>, ownerships: seq<Ownership>, candidate: Candidate, index: nat) {
    var occupied := HasChild(candidates, candidate.itemKey, index) || HasUnsupported(ownerships, candidate.itemKey, index);
    forall kind :: HasKind(candidate.events, index, kind) ==>
      match kind
      case EmbeddedType =>
        if occupied then forall terminal :: !HasTerminal(candidate.events, index, terminal)
        else HasTerminal(candidate.events, index, Missing)
      case ReferenceType =>
        !occupied && (HasTerminal(candidate.events, index, Reference) || HasTerminal(candidate.events, index, Missing))
      case OtherType =>
        !occupied && (HasTerminal(candidate.events, index, Payload) || HasTerminal(candidate.events, index, Missing))
  }

  ghost predicate CandidateTrue(candidates: seq<Candidate>, ownerships: seq<Ownership>, candidate: Candidate) {
    && WellOrdered(candidate.events)
    && (forall index :: SlotTrue(candidates, ownerships, candidate, index))
    && (forall j :: 0 <= j < |candidates| && candidate.parentKey == Some(candidates[j].itemKey) ==>
          candidate.parentIndex.Some? && exists kind :: HasKind(candidates[j].events, candidate.parentIndex.value, kind))
  }

  /** Every candidate's events are well ordered, its attachments accounted for, and it has one itself in its parent. */
  ghost predicate ContentsTrue(candidates: seq<Candidate>, ownerships: seq<Ownership>) {
    forall i :: 0 <= i < |candidates| ==> CandidateTrue(candidates, ownerships, candidates[i])
  }

  lemma ChildMeaning(candidates: seq<Candidate>, ownerships: seq<Ownership>, i: nat, index: nat)
    requires AllConsistent(candidates, OwnerMap(ownerships)) && i < |candidates|
    ensures var t := TablesOf(candidates, ownerships);
      && ((candidates[i].itemKey, index) in t.children <==> HasChild(candidates, candidates[i].itemKey, index))
      && ((candidates[i].itemKey, index) in t.unsupported <==> HasUnsupported(ownerships, candidates[i].itemKey, index))
  {
    var t, key := TablesOf(candidates, ownerships), candidates[i].itemKey;
    ChildTableEntries(candidates, t.owners);
    assert Consistent(candidates[i], t.owners);
    if HasChild(candidates, key, index) {
      var j :| 0 <= j < |candidates| && candidates[j].parentKey == Some(key) && candidates[j].parentIndex == Some(index);
      assert Embedded(candidates[j], t.owners);
    }
    if (key, index) in t.children {
      var j :| 0 <= j < |candidates| && candidates[j] == t.children[(key, index)];
    }
    if HasUnsupported(ownerships, key, index) {
      var j :| 0 <= j < |ownerships| && !ownerships[j].writable
        && ownerships[j].parentKey == Some(key) && ownerships[j].parentIndex == Some(index);
      assert Occupies(ownerships[j], t.owners);
    }
  }

  /** The table of allowed combinations, as the records see it. */
  lemma SlotMeaning(candidates: seq<Candidate>, ownerships: seq<Ownership>, i: nat, index: nat)
    requires AllConsistent(candidates, OwnerMap(ownerships)) && i < |candidates|
    requires Replay(candidates[i].events).Some?
    requires index in Replay(candidates[i].events).value.attachments
    ensures SlotFine(TablesOf(candidates, ownerships), candidates[i].itemKey, index, Replay(candidates[i].events).value)
       <==> SlotTrue(candidates, ownerships, candidates[i], index)
  {
    var events := candidates[i].events;
    var reading := Replay(events).value;
    ReplayExactly(events);
    ChildMeaning(candidates, ownerships, i, index);
    assert HasKind(events, index, reading.attachments[index]);
    if index in reading.terminals {
      assert HasTerminal(events, index, reading.terminals[index]);
    }
  }

  lemma SlotsMeaning(candidates: seq<Candidate>, ownerships: seq<Ownership>, i: nat)
    requires AllConsistent(candidates, OwnerMap(ownerships)) && i < |candidates|
    ensures SlotsFine(TablesOf(candidates, ownerships), candidates[i]) <==>
      WellOrdered(candidates[i].events) && forall index :: SlotTrue(candidates, ownerships, candidates[i], index)
  {
    var events := candidates[i].events;
    ReplayExactly(events);
    if Replay(events).Some? {
      var reading := Replay(events).value;
      forall index: nat
        ensures index in reading.attachments ==>
          (SlotFine(TablesOf(candidates, ownerships), candidates[i].itemKey, index, reading)
           <==> SlotTrue(candidates, ownerships, candidates[i], index))
        ensures index !in reading.attachments ==> SlotTrue(candidates, ownerships, candidates[i], index)
      {
        if index in reading.attachments {
          SlotMeaning(candidates, ownerships, i, index);
        }
      }
    }
  }

  lemma AttachedMeaning(candidates: seq<Candidate>, ownerships: seq<Ownership>, i: nat)
    requires DistinctKeys(candidates) && i < |candidates|
    ensures Attached(TablesOf(candidates, ownerships), candidates[i]) <==>
      forall j :: 0 <= j < |candidates| && candidates[i].parentKey == Some(candidates[j].itemKey) ==>
        candidates[i].parentIndex.Some? && exists kind :: HasKind(candidates[j].events, candidates[i].parentIndex.value, kind)
  {
    CandidateMapEntries(candidates);
    var t, candidate := TablesOf(candidates, ownerships), candidates[i];
    forall j, index | 0 <= j < |candidates|
      ensures index in AttachmentIndices(candidates[j].events) <==> exists kind :: HasKind(candidates[j].events, index, kind)
    {
      IndexHasKind(candidates[j].events, index);
    }
    if candidate.parentKey.Some? && candidate.parentKey.value in t.byKey {
      var j :| 0 <= j < |candidates| && candidates[j] == t.byKey[candidate.parentKey.value];
      assert candidate.parentKey == Some(candidates[j].itemKey);
    }
  }

  /** What assembly checks slot by slot is what the records say. */
  lemma ContentsMeaning(candidates: seq<Candidate>, ownerships: seq<Ownership>)
    requires DistinctKeys(candidates) && AllConsistent(candidates, OwnerMap(ownerships))
    ensures ContentsValid(TablesOf(candidates, ownerships), candidates) <==> ContentsTrue(candidates, ownerships)
  {
    forall i | 0 <= i < |candidates|
      ensures SlotsFine(TablesOf(candidates, ownerships), candidates[i]) && Attached(TablesOf(candidates, ownerships), candidates[i])
         <==> CandidateTrue(candidates, ownerships, candidates[i])
    {
      SlotsMeaning(candidates, ownerships, i);
      AttachedMeaning(candidates, ownerships, i);
    }
  }

  /** A tree that holds a message holds its children. */
  lemma {:induction false} TreeHoldsChild(t: Tables, folder: string, mail: Mail, key: string, index: nat)
    requires Validated(t) && TreeOf(t, folder, mail) && key in Keys(mail)
    requires key in t.byKey && index in AttachmentIndices(t.byKey[key].events) && (key, index) in t.children
    ensures t.children[(key, index)].itemKey in Keys(mail)
    decreases mail
  {
    if key == mail.itemKey {
      assert index in (set i | 0 <= i < |mail.slots| :: mail.slots[i].index);
      var i :| 0 <= i < |mail.slots| && mail.slots[i].index == index;
      SlotKeysHold(mail, |mail.slots|, i, mail.slots[i].embedded.itemKey);
    } else {
      var i := SlotOfKey(mail, |mail.slots|, key);
      TreeHoldsChild(t, folder, mail.slots[i].embedded, key, index);
      SlotKeysHold(mail, |mail.slots|, i, t.children[(key, index)].itemKey);
    }
  }

  lemma {:induction false} SlotOfKey(mail: Mail, n: nat, key: string) returns (i: nat)
    requires n <= |mail.slots| && key in SlotKeys(mail, n)
    ensures i < n && mail.slots[i].Holding? && key in Keys(mail.slots[i].embedded)
    decreases n
  {
    if mail.slots[n - 1].Holding? && key in Keys(mail.slots[n - 1].embedded) {
      return n - 1;
    }
    i := SlotOfKey(mail, n - 1, key);
  }

  lemma {:induction false} SlotKeysHold(mail: Mail, n: nat, i: nat, key: string)
    requires i < n <= |mail.slots| && mail.slots[i].Holding? && key in Keys(mail.slots[i].embedded)
    ensures key in SlotKeys(mail, n)
    decreases n
  {
    if i < n - 1 {
      SlotKeysHold(mail, n - 1, i, key);
    }
  }

  /** A message that is not the root of its tree sits in an attachment of its parent. */
  lemma {:induction false} TreeKeyAttached(t: Tables, folder: string, mail: Mail, key: string)
    requires Validated(t) && TreeOf(t, folder, mail) && key in Keys(mail)
    ensures key in t.byKey && SlotsFine(t, t.byKey[key])
    ensures key != mail.itemKey ==>
      && t.byKey[key].parentKey.Some? && t.byKey[key].parentIndex.Some? && t.byKey[key].parentKey.value in t.byKey
      && t.byKey[key].parentIndex.value in AttachmentIndices(t.byKey[t.byKey[key].parentKey.value].events)
    decreases mail
  {
    if key != mail.itemKey {
      var i := SlotOfKey(mail, |mail.slots|, key);
      var slot := mail.slots[i];
      TreeKeyAttached(t, folder, slot.embedded, key);
      if key == slot.embedded.itemKey {
        assert ChildValid(t, mail.itemKey, slot.index);
        assert slot.index in (set k | 0 <= k < |mail.slots| :: mail.slots[k].index);
      }
    }
  }

  lemma {:induction false} ForestKeysHold(mails: seq<Mail>, k: nat, key: string)
    requires k < |mails| && key in Keys(mails[k])
    ensures key in ForestKeys(mails)
    decreases |mails|
  {
    if k < |mails| - 1 {
      ForestKeysHold(mails[..|mails| - 1], k, key);
    }
  }

  lemma {:induction false} TreeOfKey(mails: seq<Mail>, key: string) returns (k: nat)
    requires key in ForestKeys(mails)
    ensures k < |mails| && key in Keys(mails[k])
    decreases |mails|
  {
    if key in Keys(mails[|mails| - 1]) {
      return |mails| - 1;
    }
    k := TreeOfKey(mails[..|mails| - 1], key);
  }

  /** With every child attached and every root built, no candidate is missing from the forest. */
  lemma {:induction false} CandidateInForest(t: Tables, candidates: seq<Candidate>, mails: seq<Mail>, key: string)
    requires DistinctKeys(candidates) && t.byKey == CandidateMap(candidates) && Validated(t) && key in t.byKey
    requires Forest(t, mails) && RootsBuilt(t, candidates, |candidates|, mails)
    requires AllConsistent(candidates, t.owners) && ChildrenExact(t, candidates) && ContentsValid(t, candidates)
    ensures key in ForestKeys(mails)
    decreases |PathOf(t, key)|
  {
    CandidateMapEntries(candidates);
    var candidate := t.byKey[key];
    var i :| 0 <= i < |candidates| && candidates[i] == candidate;
    if IsRoot(candidate, t.byKey) {
      var k :| 0 <= k < |mails| && mails[k].itemKey == key;
      ForestKeysHold(mails, k, key);
    } else {
      var parent := candidate.parentKey.value;
      var j :| 0 <= j < |candidates| && candidates[j] == t.byKey[parent];
      assert Attached(t, candidates[i]) && Consistent(candidates[j], t.owners);
      ParentPath(t, key);
      CandidateInForest(t, candidates, mails, parent);
      var k := TreeOfKey(mails, parent);
      assert Embedded(candidates[i], t.owners);
      TreeHoldsChild(t, mails[k].folder, mails[k], parent, candidate.parentIndex.value);
      ForestKeysHold(mails, k, key);
    }
  }

  lemma ContentsCover(t: Tables, candidates: seq<Candidate>, mails: seq<Mail>)
    requires DistinctKeys(candidates) && t.byKey == CandidateMap(candidates) && Validated(t)
    requires Forest(t, mails) && RootsBuilt(t, candidates, |candidates|, mails)
    requires AllConsistent(candidates, t.owners) && ChildrenExact(t, candidates) && ContentsValid(t, candidates)
    ensures |ForestKeys(mails)| == |candidates|
  {
    CandidateMapEntries(candidates);
    forall key ensures ForestKeys(mails)[key] == multiset(t.byKey.Keys)[key] {
      ForestKeysOnce(t, mails, key);
      if key in t.byKey {
        CandidateInForest(t, candidates, mails, key);
      }
    }
    assert ForestKeys(mails) == multiset(t.byKey.Keys);
  }

  /** A forest that covers every candidate has every child attached. */
  lemma CoverIsValid(t: Tables, candidates: seq<Candidate>, mails: seq<Mail>)
    requires DistinctKeys(candidates) && t.byKey == CandidateMap(candidates) && Validated(t)
    requires Forest(t, mails) && ForestKeys(mails) == multiset(t.byKey.Keys)
    ensures ContentsValid(t, candidates)
  {
    CandidateMapEntries(candidates);
    forall i | 0 <= i < |candidates| ensures SlotsFine(t, candidates[i]) && Attached(t, candidates[i]) {
      var key := candidates[i].itemKey;
      assert key in t.byKey && t.byKey[key] == candidates[i];
      assert key in multiset(t.byKey.Keys);
      var k := TreeOfKey(mails, key);
      TreeKeyAttached(t, mails[k].folder, mails[k], key);
      if key == mails[k].itemKey {
        TopHasNoParent(t, key);
      }
    }
  }

  lemma TopHasNoParent(t: Tables, key: string)
    requires Validated(t) && key in t.byKey && Top(t, key) == key
    ensures t.byKey[key].parentKey.None? || t.byKey[key].parentKey.value !in t.byKey
  {
    var candidate := t.byKey[key];
    if candidate.parentKey.Some? && candidate.parentKey.value in t.byKey {
      TopIsAbove(t, candidate.parentKey.value);
      ParentPath(t, key);
    }
  }

  lemma {:induction false} TopIsAbove(t: Tables, key: string)
    requires Validated(t) && key in t.byKey
    ensures Top(t, key) in t.byKey && |PathOf(t, Top(t, key))| <= |PathOf(t, key)|
    decreases |PathOf(t, key)|
  {
    ParentPath(t, key);
    var candidate := t.byKey[key];
    if candidate.parentKey.Some? && candidate.parentKey.value in t.byKey {
      TopIsAbove(t, candidate.parentKey.value);
    }
  }

  /** What is embedded in a message has no more bytes than the message. */
  lemma ChildSmaller(t: Tables, key: string, index: nat)
    requires Validated(t) && key in t.byKey && (key, index) in t.children
    requires index in AttachmentIndices(t.byKey[key].events)
    ensures t.children[(key, index)].itemKey in t.byKey
    ensures TotalBytes(t, t.children[(key, index)].itemKey) <= TotalBytes(t, key)
  {
    ChildInside(t, key, index);
    BelowBound(t.byKey[key].events, index);
    EmbeddedBytesGrow(t, key, index + 1, IndexBound(t.byKey[key].events));
  }

  lemma {:induction false} TreeKeySmaller(t: Tables, folder: string, mail: Mail, key: string)
    requires Validated(t) && TreeOf(t, folder, mail) && key in Keys(mail)
    ensures key in t.byKey && TotalBytes(t, key) <= TotalBytes(t, mail.itemKey)
    decreases mail
  {
    if key != mail.itemKey {
      var i := SlotOfKey(mail, |mail.slots|, key);
      TreeKeySmaller(t, folder, mail.slots[i].embedded, key);
      assert mail.slots[i].index in (set k | 0 <= k < |mail.slots| :: mail.slots[k].index);
      ChildSmaller(t, mail.itemKey, mail.slots[i].index);
    }
  }

  lemma CoverSizesValid(t: Tables, mails: seq<Mail>)
    requires Validated(t) && Forest(t, mails) && Sized(t, mails) && ForestKeys(mails) == multiset(t.byKey.Keys)
    ensures SizesValid(t)
  {
    forall key ensures !Oversized(t, key) {
      if key in t.byKey {
        assert key in multiset(t.byKey.Keys);
        var k := TreeOfKey(mails, key);
        TreeKeySmaller(t, mails[k].folder, mails[k], key);
      }
    }
  }

  /** The tables are valid and so is everything they hold. */
  ghost predicate AllValid(candidates: seq<Candidate>, ownerships: seq<Ownership>) {
    var t := TablesOf(candidates, ownerships);
    RecordsValid(candidates, ownerships) && Validated(t) && ContentsTrue(candidates, ownerships) && SizesValid(t)
  }

  /** Every message of the tree carries the folder recorded for the top of its own chain of parents. */
  ghost predicate FoldersOfTops(t: Tables, mail: Mail)
    requires Validated(t)
    decreases mail
  {
    && mail.itemKey in t.byKey
    && Top(t, mail.itemKey) in t.byKey && mail.folder == t.byKey[Top(t, mail.itemKey)].folder
    && forall i :: 0 <= i < |mail.slots| && mail.slots[i].Holding? ==> FoldersOfTops(t, mail.slots[i].embedded)
  }

  lemma {:induction false} TreeFolders(t: Tables, folder: string, mail: Mail)
    requires Validated(t) && TreeOf(t, folder, mail)
    requires Top(t, mail.itemKey) in t.byKey && t.byKey[Top(t, mail.itemKey)].folder == folder
    ensures FoldersOfTops(t, mail)
    decreases mail
  {
    forall i | 0 <= i < |mail.slots| && mail.slots[i].Holding? ensures FoldersOfTops(t, mail.slots[i].embedded) {
      ChildBelow(t, folder, mail, i);
      TreeFolders(t, folder, mail.slots[i].embedded);
    }
  }

  ghost predicate FolderedForest(t: Tables, mails: seq<Mail>)
    requires Validated(t)
  {
    forall i :: 0 <= i < |mails| ==> FoldersOfTops(t, mails[i])
  }

  lemma ForestFolders(t: Tables, mails: seq<Mail>)
    requires Validated(t) && Forest(t, mails)
    ensures FolderedForest(t, mails)
  {
    forall i | 0 <= i < |mails| ensures FoldersOfTops(t, mails[i]) {
      assert WholeTree(t, mails[i]);
      TreeFolders(t, mails[i].folder, mails[i]);
    }
  }

  /**
   Rebuilds the forest. Unless an interruption comes, it succeeds exactly for valid records with valid contents whose
   bytes can be counted, and then every writable candidate is in the forest exactly once, in the slot of the
   attachment that owns it and under the folder of its top ancestor, with the trees in candidate order. A cycle is never reported, because validated paths leave none.
   */
  method Assemble(candidates: seq<Candidate>, ownerships: seq<Ownership>, interrupts: bool)
    returns (r: Result<seq<Mail>, Error>)
    requires DistinctKeys(candidates)
    ensures r.Ok? ==> AllValid(candidates, ownerships)
    ensures r.Ok? ==> Forest(TablesOf(candidates, ownerships), r.value)
    ensures r.Ok? ==> ChildrenExact(TablesOf(candidates, ownerships), candidates)
    ensures r.Ok? ==> FolderedForest(TablesOf(candidates, ownerships), r.value)
    ensures r.Ok? ==> MailKeys(r.value) == RootKeys(candidates, CandidateMap(candidates))
    ensures r.Ok? ==> ForestKeys(r.value) == multiset(CandidateMap(candidates).Keys)
    ensures r.Err? ==> (r.error.Interrupted? && interrupts) || !AllValid(candidates, ownerships)
    ensures r.Err? && r.error.SizeOverflow? ==>
      Validated(TablesOf(candidates, ownerships)) && !SizesValid(TablesOf(candidates, ownerships))
    ensures r.Err? ==> !r.error.EmbeddedCycle?
  {
    var byKey, owners := CandidateMap(candidates), OwnerMap(ownerships);
    var validated := ValidateAll(ownerships, owners, interrupts);
    if validated.Err? {
      return Err(validated.error);
    }
    var children := CollectChildren(candidates, owners, interrupts);
    if children.Err? {
      return Err(children.error);
    }
    var unsupported := CollectUnsupported(ownerships, owners, interrupts);
    if unsupported.Err? {
      return Err(unsupported.error);
    }
    var t := Tables(byKey, owners, children.value, unsupported.value);
    ChildTableEntries(candidates, owners);
    TablesValidated(t, candidates, ownerships);
    ChildrenAreExact(t, candidates, ownerships);
    ContentsMeaning(candidates, ownerships);
    var output := BuildRoots(t, candidates, interrupts);
    if output.Err? {
      InvalidContents(t, candidates, output.error);
      return output;
    }
    var accounted := CountMail(output.value);
    if accounted != |candidates| {
      if ContentsValid(t, candidates) {
        ContentsCover(t, candidates, output.value);
        assert false;
      }
      return Err(InvalidCandidate("<job>"));
    }
    CandidateMapEntries(candidates);
    ForestCoversOnce(t, output.value);
    CoverIsValid(t, candidates, output.value);
    CoverSizesValid(t, output.value);
    ForestFolders(t, output.value);
    return output;
  }

  lemma InvalidContents(t: Tables, candidates: seq<Candidate>, e: Error)
    requires DistinctKeys(candidates) && t.byKey == CandidateMap(candidates) && Validated(t)
    requires e.Interrupted? || Blames(t, e)
    ensures e.InvalidCandidate? ==> !ContentsValid(t, candidates)
    ensures e.SizeOverflow? ==> !SizesValid(t)
  {
    CandidateMapEntries(candidates);
    if e.SizeOverflow? {
      var key :| Oversized(t, key);
    }
    if e.InvalidCandidate? {
      var i :| 0 <= i < |candidates| && candidates[i] == t.byKey[e.key];
    }
  }
}
