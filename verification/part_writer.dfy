/**
 The transactional writer of one output part, kept to what the part loop relies on: messages are
 appended to a stream and to the tables of their folders, a checkpoint records lengths only, and a
 rollback truncates to them. Page layout is abstracted into size functions of the stream.
 */
module PartWriter {
  import opened Wrappers

  /** One translated top-level message, with its destination and what it adds to the part statistics. */
  datatype Message = Message(
    folder: nat, associated: bool,
    itemKeys: seq<string>, unsupportedKeys: seq<string>, messageCount: nat,
    partial: bool, omittedProperties: nat, omittedAttachments: nat)

  datatype Folder = Folder(messages: seq<Message>, associated: seq<Message>)

  /** Length of the private file, of the file finalization would publish, and of the file it does publish. */
  datatype Sizes = Sizes(
    privateEof: (nat, seq<Message>) -> nat,
    projected: (nat, seq<Message>) -> nat,
    finalized: (nat, seq<Message>) -> nat)

  datatype WriterError = InvalidStructure | Interrupted | Io

  /** What may go wrong outside the program: the interrupt flag is raised, reading or writing fails. */
  datatype Faults = Faults(interrupts: bool, failures: bool)

  /** An error from outside can only be one that may happen. */
  predicate Possible(faults: Faults, e: WriterError) {
    (e.Interrupted? ==> faults.interrupts) && (e.Io? ==> faults.failures)
  }

  datatype Append = Appended(projectedEof: nat) | PartFull(rejectedEof: nat)

  datatype Checkpoint = Checkpoint(streamLength: nat, folderLengths: seq<(nat, nat)>)

  /** The messages of the stream that belong to one table, in append order. */
  function Select(stream: seq<Message>, folder: nat, associated: bool): seq<Message> {
    if stream == [] then []
    else
      var last := stream[|stream| - 1];
      var earlier := Select(stream[..|stream| - 1], folder, associated);
      if last.folder == folder && last.associated == associated then earlier + [last] else earlier
  }

  function Tables(stream: seq<Message>, count: nat): (r: seq<Folder>)
    ensures |r| == count
    ensures forall f :: 0 <= f < count ==> r[f] == Folder(Select(stream, f, false), Select(stream, f, true))
  {
    seq(count, f requires 0 <= f < count => Folder(Select(stream, f, false), Select(stream, f, true)))
  }

  function Lengths(folders: seq<Folder>): (r: seq<(nat, nat)>)
    ensures |r| == |folders|
    ensures forall f :: 0 <= f < |folders| ==> r[f] == (|folders[f].messages|, |folders[f].associated|)
  {
    seq(|folders|, f requires 0 <= f < |folders| => (|folders[f].messages|, |folders[f].associated|))
  }

  function CheckpointOf(stream: seq<Message>, count: nat): Checkpoint {
    Checkpoint(|stream|, Lengths(Tables(stream, count)))
  }

  lemma {:induction false} SelectPrefix(shorter: seq<Message>, longer: seq<Message>, folder: nat, associated: bool)
    requires shorter <= longer
    ensures Select(shorter, folder, associated) <= Select(longer, folder, associated)
    decreases |longer|
  {
    if |shorter| < |longer| {
      SelectPrefix(shorter, longer[..|longer| - 1], folder, associated);
    } else {
      assert shorter == longer;
    }
  }

  /** The items that pass a test, in order. */
  function Filter<T>(s: seq<T>, test: T -> bool): seq<T> {
    if s == [] then [] else (if test(s[0]) then [s[0]] else []) + Filter(s[1..], test)
  }

  lemma {:induction false} FilterAppend<T>(s: seq<T>, x: T, test: T -> bool)
    ensures Filter(s + [x], test) == Filter(s, test) + (if test(x) then [x] else [])
  {
    if s == [] {
      assert [x][1..] == [];
    } else {
      assert (s + [x])[1..] == s[1..] + [x];
      FilterAppend(s[1..], x, test);
    }
  }

  /** A folder's tables hold its own messages, and its associated ones, in the order they were appended. */
  ghost predicate Filed(stream: seq<Message>, folders: seq<Folder>) {
    forall f :: 0 <= f < |folders| ==>
      && folders[f].messages == Filter(stream, (m: Message) => m.folder == f && !m.associated)
      && folders[f].associated == Filter(stream, (m: Message) => m.folder == f && m.associated)
  }

  lemma {:induction false} SelectFilters(stream: seq<Message>, folder: nat, associated: bool, test: Message -> bool)
    requires forall m :: test(m) <==> m.folder == folder && (m.associated <==> associated)
    ensures Select(stream, folder, associated) == Filter(stream, test)
  {
    if stream != [] {
      var n := |stream| - 1;
      SelectFilters(stream[..n], folder, associated, test);
      FilterAppend(stream[..n], stream[n], test);
      assert stream == stream[..n] + [stream[n]];
    }
  }

  lemma TablesFiled(stream: seq<Message>, count: nat)
    ensures Filed(stream, Tables(stream, count))
  {
    forall f | 0 <= f < count
      ensures Select(stream, f, false) == Filter(stream, (m: Message) => m.folder == f && !m.associated)
      ensures Select(stream, f, true) == Filter(stream, (m: Message) => m.folder == f && m.associated)
    {
      SelectFilters(stream, f, false, (m: Message) => m.folder == f && !m.associated);
      SelectFilters(stream, f, true, (m: Message) => m.folder == f && m.associated);
    }
  }

  class Writer {
    const partIndex: nat
    const sizes: Sizes
    const faults: Faults
    var stream: seq<Message>
    var folders: seq<Folder>

    ghost predicate Valid()
      reads this
    {
      folders == Tables(stream, |folders|)
    }

    constructor (index: nat, sizeModel: Sizes, folderCount: nat, outside: Faults)
      ensures Valid() && stream == [] && |folders| == folderCount
      ensures partIndex == index && sizes == sizeModel && faults == outside
    {
      partIndex, sizes, faults := index, sizeModel, outside;
      stream := [];
      folders := seq(folderCount, _ => Folder([], []));
    }

    function MessageCount(): nat
      reads this
    {
      |stream|
    }

    function PrivateEof(): nat
      reads this
    {
      sizes.privateEof(partIndex, stream)
    }

    method BeginBatch() returns (checkpoint: Checkpoint)
      requires Valid()
      ensures checkpoint == CheckpointOf(stream, |folders|)
    {
      checkpoint := Checkpoint(|stream|, Lengths(folders));
    }

    /** The stream and every table begin with what was there when these messages had been appended. */
    ghost predicate Extends(saved: seq<Message>)
      reads this
    {
      && saved <= stream
      && forall f :: 0 <= f < |folders| ==>
           Select(saved, f, false) <= folders[f].messages && Select(saved, f, true) <= folders[f].associated
    }

    lemma ValidExtends(saved: seq<Message>)
      requires Valid() && saved <= stream
      ensures Extends(saved)
    {
      forall f | 0 <= f < |folders|
        ensures Select(saved, f, false) <= folders[f].messages && Select(saved, f, true) <= folders[f].associated
      {
        SelectPrefix(saved, stream, f, false);
        SelectPrefix(saved, stream, f, true);
      }
    }

    /** Restores the exact state at which the checkpoint was taken, from lengths alone. */
    method RollbackBatch(checkpoint: Checkpoint, ghost saved: seq<Message>) returns (r: Result<(), WriterError>)
      requires Extends(saved) && checkpoint == CheckpointOf(saved, |checkpoint.folderLengths|)
      modifies this
      ensures |checkpoint.folderLengths| != |old(folders)| <==> r == Err(InvalidStructure)
      ensures r.Err? ==> r.error.InvalidStructure? || (r.error.Io? && faults.failures)
      ensures r.Ok? ==> Valid() && stream == saved
      ensures r.Err? ==> stream == old(stream) && folders == old(folders)
      ensures |folders| == |old(folders)|
    {
      if |checkpoint.folderLengths| != |folders| {
        return Err(InvalidStructure);
      }
      var failed := *;
      if failed && faults.failures {
        return Err(Io);
      }
      var tables := folders;
      var lengths := checkpoint.folderLengths;
      forall f | 0 <= f < |tables|
        ensures lengths[f].0 <= |tables[f].messages| && lengths[f].1 <= |tables[f].associated|
        ensures tables[f].messages[..lengths[f].0] == Select(saved, f, false)
        ensures tables[f].associated[..lengths[f].1] == Select(saved, f, true)
      {}
      stream := stream[..checkpoint.streamLength];
      folders := seq(|tables|, f requires 0 <= f < |tables| =>
        Folder(tables[f].messages[..lengths[f].0], tables[f].associated[..lengths[f].1]));
      assert stream == saved;
      assert folders == Tables(stream, |folders|);
      return Ok(());
    }

    /**
     Appends without measuring. A failed append is undone; if undoing it fails as well, the tables are restored
     but the stream keeps the message.
     */
    method AppendDeferred(message: Message) returns (r: Result<(), WriterError>)
      requires Valid()
      modifies this
      ensures r.Ok? ==> Valid() && stream == old(stream) + [message]
      ensures r.Err? ==> folders == old(folders) && (stream == old(stream) || stream == old(stream) + [message])
      ensures message.folder >= |old(folders)| <==> r == Err(InvalidStructure)
      ensures r == Err(InvalidStructure) ==> stream == old(stream)
      ensures r.Err? ==> Possible(faults, r.error)
      ensures |folders| == |old(folders)|
    {
      if message.folder >= |folders| {
        return Err(InvalidStructure);
      }
      var raised := *;
      if raised && faults.interrupts {
        return Err(Interrupted);
      }
      var failed := *;
      if failed && faults.failures {
        return Err(Io);
      }
      assert (stream + [message])[..|stream|] == stream;
      stream := stream + [message];
      var unlinked := *;
      if unlinked && faults.failures {
        return Err(Io);
      }
      var target := folders[message.folder];
      if message.associated {
        folders := folders[message.folder := target.(associated := target.associated + [message])];
      } else {
        folders := folders[message.folder := target.(messages := target.messages + [message])];
      }
      return Ok(());
    }

    method ProjectedEof() returns (r: Result<nat, WriterError>)
      ensures r.Ok? ==> stream != [] && r.value == sizes.projected(partIndex, stream)
      ensures stream == [] ==> r.Err?
      ensures r.Err? ==> Possible(faults, r.error) && (r.error.InvalidStructure? ==> stream == [])
    {
      var raised := *;
      if raised && faults.interrupts {
        return Err(Interrupted);
      }
      if stream == [] {
        return Err(InvalidStructure);
      }
      return Ok(sizes.projected(partIndex, stream));
    }

    /**
     Appends one message with exact measurement, and takes it back when it would push a part that
     already holds a message over the maximum. A first message is kept whatever its size.
     */
    method AppendMessage(message: Message, maximum: nat) returns (r: Result<Append, WriterError>)
      requires Valid()
      modifies this
      ensures |folders| == |old(folders)| && (r.Ok? ==> Valid())
      ensures r.Err? ==> stream == old(stream) || stream == old(stream) + [message]
      ensures r.Err? ==> Possible(faults, r.error)
      ensures r == Err(InvalidStructure) ==> maximum == 0 || message.folder >= |folders|
      ensures r.Ok? && r.value.Appended? ==>
        && stream == old(stream) + [message]
        && r.value.projectedEof == sizes.projected(partIndex, stream)
        && (r.value.projectedEof <= maximum || |stream| == 1)
      ensures r.Ok? && r.value.PartFull? ==>
        && stream == old(stream) != []
        && r.value.rejectedEof == sizes.projected(partIndex, stream + [message])
        && r.value.rejectedEof > maximum
    {
      if maximum == 0 {
        return Err(InvalidStructure);
      }
      ghost var saved := stream;
      var checkpoint := BeginBatch();
      ValidExtends(stream);
      var appended := AppendDeferred(message);
      if appended.Err? {
        var undone := RollbackBatch(checkpoint, saved);
        return Err(if undone.Err? then undone.error else appended.error);
      }
      ValidExtends(saved);
      var projected := ProjectedEof();
      if projected.Err? {
        var undone := RollbackBatch(checkpoint, saved);
        return Err(if undone.Err? then undone.error else projected.error);
      }
      if projected.value > maximum && MessageCount() > 1 {
        var undone := RollbackBatch(checkpoint, saved);
        if undone.Err? {
          return Err(undone.error);
        }
        return Ok(PartFull(projected.value));
      }
      return Ok(Appended(projected.value));
    }

    method Finalize() returns (r: Result<nat, WriterError>)
      ensures r.Ok? ==> stream != [] && r.value == sizes.finalized(partIndex, stream)
      ensures stream == [] ==> r.Err?
      ensures r.Err? ==> Possible(faults, r.error) && (r.error.InvalidStructure? ==> stream == [])
    {
      if stream == [] {
        return Err(InvalidStructure);
      }
      var raised := *;
      if raised && faults.interrupts {
        return Err(Interrupted);
      }
      var failed := *;
      if failed && faults.failures {
        return Err(Io);
      }
      return Ok(sizes.finalized(partIndex, stream));
    }
  }
}
