/**
 The part loop of an incremental split. Messages are appended without measuring and measured only at
 batch boundaries; a batch that overshoots is rolled back, together with the statistics and the cursor,
 and replayed one message at a time with exact measurement. Interrupts and failures may strike wherever the
 loop checks for them.
 */
module SplitLoop {
  import opened Wrappers
  import opened PartWriter
  import opened SplitSpec
  import opened SplitBatches
  import opened SplitStats
  import Greedy

  datatype Ending =
    | Completed
    | Unfinished(interrupted: bool)
    | TooManyParts
    | PartExceedsMaximum(index: nat, byteLength: nat)

  function EndingOf(error: WriterError): Ending {
    Unfinished(error.Interrupted?)
  }

  datatype Part = Part(
    index: nat, messages: seq<Message>, folders: seq<Folder>, stats: Stats, byteLength: nat, oversize: bool, partial: bool)

  ghost predicate Translatable(env: Env, n: nat)
    requires n <= |env.candidates|
  {
    forall i :: 0 <= i < n ==> !env.translate(env.candidates[i]).Broken?
  }

  /** Every candidate up to `visited` was rejected exactly once or is writable. */
  ghost predicate Accounted(env: Env, rejected: seq<string>, visited: nat) {
    visited <= |env.candidates| && rejected == RejectedKeys(env, visited) && Translatable(env, visited)
  }

  /** The durable record of a run: rejections in the order they were written. */
  class Ledger {
    var rejected: seq<string>
    var terminal: set<string>
    ghost var visited: nat

    ghost predicate Valid(env: Env)
      reads this
    {
      Accounted(env, rejected, visited) && terminal == (set k | k in rejected)
    }

    constructor (env: Env)
      ensures Valid(env) && rejected == [] && visited == 0
    {
      rejected, terminal, visited := [], {}, 0;
    }

    method Reject(env: Env, index: nat)
      requires Valid(env) && visited == index < |env.candidates|
      requires env.translate(env.candidates[index]).Unwritable?
      modifies this
      ensures Valid(env) && visited == index + 1
      ensures rejected == old(rejected) + [env.candidates[index]]
    {
      var key := env.candidates[index];
      rejected := rejected + [key];
      terminal := terminal + {key};
      visited := index + 1;
    }

    ghost method Visit(env: Env, index: nat)
      requires Valid(env) && index <= visited && index < |env.candidates|
      requires env.translate(env.candidates[index]).Writable?
      modifies this`visited
      ensures Valid(env) && visited == if index == old(visited) then index + 1 else old(visited)
    {
      if index == visited {
        visited := index + 1;
        assert RejectedKeys(env, visited) == RejectedKeys(env, index) + [];
      }
    }
  }

  lemma {:induction false} RejectedMember(env: Env, n: nat, key: string)
    requires n <= |env.candidates|
    ensures key in RejectedKeys(env, n) <==>
      exists i :: 0 <= i < n && env.candidates[i] == key && env.translate(key).Unwritable?
  {
    if n > 0 {
      RejectedMember(env, n - 1, key);
    }
  }

  /** The terminal set holds a candidate's key exactly when that candidate was rejected before. */
  lemma TerminalMeansRejected(env: Env, visited: nat, index: nat)
    requires Distinct(env.candidates) && index <= visited <= |env.candidates| && index < |env.candidates|
    ensures env.candidates[index] in RejectedKeys(env, visited) <==>
      index < visited && env.translate(env.candidates[index]).Unwritable?
  {
    RejectedMember(env, visited, env.candidates[index]);
  }

  /** A candidate the part loop cannot place: it cannot be translated, or belongs to a folder the layout lacks. */
  ghost predicate Unfit(env: Env, key: string) {
    match env.translate(key)
    case Broken => true
    case Writable(m) => m.folder >= env.folderCount
    case Unwritable => false
  }

  /** A run stops short for an interruption or a failure that may come, a part size of zero, or an unfit candidate. */
  ghost predicate StopsFor(env: Env, ending: Ending) {
    && ending.Unfinished?
    && if ending.interrupted then env.faults.interrupts
       else env.faults.failures || env.maximum == 0 || exists key :: key in env.candidates && Unfit(env, key)
  }

  datatype Step = Continue | Full | Stop(ending: Ending)

  /** The state of one part being filled: the cursor, and the batch that can still be rolled back. */
  datatype State = State(
    index: nat, stats: Stats, checkpoint: Checkpoint, batchIndex: nat, batchStats: Stats,
    batchAttempts: nat, batchPrivateEof: nat, exactReplay: bool)

  /**
   What every step keeps: the stream and the statistics are those of the candidates from the start to
   the cursor, the checkpoint and the saved statistics those of the accepted batches, which may be
   published as they stand; during exact replay so may the whole stream.
   */
  ghost predicate Good(env: Env, part: nat, start: nat, stream: seq<Message>, s: State) {
    && start <= s.batchIndex <= s.index <= |env.candidates|
    && var batch := Writables(env, start, s.batchIndex);
    && stream == Writables(env, start, s.index)
    && s.stats == StatsOf(env, part, stream)
    && s.batchStats == StatsOf(env, part, batch)
    && s.checkpoint == CheckpointOf(batch, env.folderCount)
    && Accepted(env, part, batch)
    && (s.exactReplay ==> Accepted(env, part, stream))
    && (!s.exactReplay && s.batchAttempts == 0 ==> stream == batch)
  }

  lemma GoodStart(env: Env, part: nat, start: nat, privateEof: nat)
    requires start <= |env.candidates|
    ensures Good(env, part, start, [],
      State(start, InitialStats(env, part), CheckpointOf([], env.folderCount), start, InitialStats(env, part), 0, privateEof, false))
  {}

  /** Passing a candidate that contributes no message. */
  lemma GoodSkip(env: Env, part: nat, start: nat, stream: seq<Message>, s: State, attempts: nat)
    requires Good(env, part, start, stream, s) && s.index < |env.candidates|
    requires env.translate(env.candidates[s.index]).Unwritable? && s.batchAttempts <= attempts
    ensures Good(env, part, start, stream, s.(index := s.index + 1, batchAttempts := attempts))
  {}

  lemma GoodAppend(env: Env, part: nat, start: nat, stream: seq<Message>, s: State, m: Message)
    requires Good(env, part, start, stream, s) && s.index < |env.candidates|
    requires env.translate(env.candidates[s.index]) == Writable(m)
    requires s.exactReplay ==> Accepted(env, part, stream + [m])
    ensures Good(env, part, start, stream + [m],
      s.(index := s.index + 1, stats := AddMessage(s.stats, m), batchAttempts := s.batchAttempts + 1))
  {
    StatsAppend(env, part, stream, m);
  }

  lemma GoodRollback(env: Env, part: nat, start: nat, stream: seq<Message>, s: State)
    requires Good(env, part, start, stream, s)
    ensures var batch := Writables(env, start, s.batchIndex);
      && batch <= stream
      && Good(env, part, start, batch,
           s.(index := s.batchIndex, stats := s.batchStats, batchAttempts := 0, exactReplay := true))
  {
    WritablesJoin(env, start, s.batchIndex, s.index);
  }

  lemma GoodAccept(env: Env, part: nat, start: nat, stream: seq<Message>, s: State, privateEof: nat)
    requires Good(env, part, start, stream, s) && Accepted(env, part, stream)
    ensures Good(env, part, start, stream,
      s.(checkpoint := CheckpointOf(stream, env.folderCount), batchIndex := s.index, batchStats := s.stats,
         batchAttempts := 0, batchPrivateEof := privateEof))
  {}

  function RolledBack(s: State): State {
    s.(index := s.batchIndex, stats := s.batchStats, batchAttempts := 0, exactReplay := true)
  }

  function BatchKept(s: State, checkpoint: Checkpoint, privateEof: nat): State {
    s.(checkpoint := checkpoint, batchIndex := s.index, batchStats := s.stats,
       batchAttempts := 0, batchPrivateEof := privateEof)
  }

  function WithMessage(s: State, m: Message): State {
    s.(index := s.index + 1, stats := AddMessage(s.stats, m), batchAttempts := s.batchAttempts + 1)
  }

  /** The messages do not fit, and there is more than one of them. */
  predicate Overshoots(env: Env, part: nat, stream: seq<Message>) {
    env.sizes.projected(part, stream) > env.maximum && |stream| > 1
  }

  /** One candidate further, within the same batch. */
  ghost predicate Stepped(env: Env, s: State, s': State, visited: nat, visited': nat)
    requires s.index < |env.candidates|
  {
    && s'.index == s.index + 1 && s'.batchIndex == s.batchIndex && s'.batchPrivateEof == s.batchPrivateEof
    && s'.batchAttempts == NextAttempts(env, s.index, s.batchAttempts, visited)
    && s'.exactReplay == s.exactReplay && visited' == Max(visited, s.index + 1)
  }

  /** The part filling in batches takes is the one that filling on from this state takes. */
  ghost predicate Tracks(env: Env, part: nat, start: nat, seen: nat, stream: seq<Message>, s: State, visited: nat)
    requires start <= s.batchIndex <= s.index <= |env.candidates|
  {
    if s.exactReplay then
      BatchedPart(env, part, start, seen) == Seen(Fill(env, part, s.index, stream), visited)
    else
      && s.batchPrivateEof == env.sizes.privateEof(part, Writables(env, start, s.batchIndex))
      && BatchedPart(env, part, start, seen)
         == FillBatches(env, part, start, s.batchIndex, s.index, s.batchAttempts, visited)
  }

  lemma TrackBatch(env: Env, part: nat, start: nat, seen: nat, stream: seq<Message>, s: State, visited: nat)
    requires Good(env, part, start, stream, s) && !s.exactReplay && Tracks(env, part, start, seen, stream, s, visited)
    requires Due(env, part, start, s.batchIndex, s.index, s.batchAttempts)
    ensures Overshoots(env, part, stream) ==>
      Tracks(env, part, start, seen, Writables(env, start, s.batchIndex), RolledBack(s), visited)
    ensures !Overshoots(env, part, stream) ==>
      Tracks(env, part, start, seen, stream,
             BatchKept(s, CheckpointOf(stream, env.folderCount), env.sizes.privateEof(part, stream)), visited)
  {}

  lemma TrackStep(env: Env, part: nat, start: nat, seen: nat, stream: seq<Message>, s: State, visited: nat,
                  stream': seq<Message>, s': State, visited': nat)
    requires Good(env, part, start, stream, s) && Tracks(env, part, start, seen, stream, s, visited)
    requires s.index < |env.candidates| && Stepped(env, s, s', visited, visited')
    requires Good(env, part, start, stream', s')
    requires !s.exactReplay ==> !Due(env, part, start, s.batchIndex, s.index, s.batchAttempts)
    ensures Tracks(env, part, start, seen, stream', s', visited')
  {
    if s.exactReplay {
      assert stream' == Writables(env, start, s.index + 1);
      if env.translate(env.candidates[s.index]).Writable? {
        assert stream' == stream + [env.translate(env.candidates[s.index]).message];
      }
    }
  }

  lemma TrackEnd(env: Env, part: nat, start: nat, seen: nat, stream: seq<Message>, s: State, visited: nat)
    requires Good(env, part, start, stream, s) && Tracks(env, part, start, seen, stream, s, visited)
    requires s.index == |env.candidates| <= visited
    requires !s.exactReplay ==> !Due(env, part, start, s.batchIndex, s.index, s.batchAttempts)
    ensures BatchedPart(env, part, start, seen) == Filled(stream, s.index, visited)
    ensures EndsWell(env, part, start, s.index)
  {}

  lemma TrackFull(env: Env, part: nat, start: nat, seen: nat, stream: seq<Message>, s: State, visited: nat)
    requires Good(env, part, start, stream, s) && Tracks(env, part, start, seen, stream, s, visited)
    requires s.exactReplay && s.index < |env.candidates| && s.index <= visited && stream != []
    requires env.translate(env.candidates[s.index]).Writable?
    requires env.sizes.projected(part, stream + [env.translate(env.candidates[s.index]).message]) > env.maximum
    ensures BatchedPart(env, part, start, seen) == Filled(stream, s.index, visited)
    ensures EndsWell(env, part, start, s.index)
  {}

  class PartLoop {
    const env: Env
    const part: nat
    const start: nat
    const writer: Writer
    const ledger: Ledger
    /** How many candidates had been seen when the part began. */
    ghost const seen: nat
    var s: State

    ghost predicate Valid()
      reads this, writer, ledger
    {
      && Distinct(env.candidates)
      && ledger.Valid(env) && s.index <= ledger.visited
      && writer.Valid() && writer.partIndex == part && writer.sizes == env.sizes && writer.faults == env.faults
      && |writer.folders| == env.folderCount
      && Good(env, part, start, writer.stream, s)
    }

    /** What is left to do leads to the part that filling in batches takes. */
    ghost predicate Tracked()
      reads this, writer, ledger
      requires Valid()
    {
      Tracks(env, part, start, seen, writer.stream, s, ledger.visited)
    }

    constructor (e: Env, partIndex: nat, from: nat, w: Writer, l: Ledger)
      requires Distinct(e.candidates) && l.Valid(e) && from <= l.visited
      requires w.Valid() && w.stream == [] && w.partIndex == partIndex && w.sizes == e.sizes && w.faults == e.faults
      requires |w.folders| == e.folderCount
      ensures Valid() && env == e && part == partIndex && start == from && writer == w && ledger == l
      ensures s.index == from && !s.exactReplay && seen == l.visited && Tracked()
    {
      env, part, start, writer, ledger, seen := e, partIndex, from, w, l, l.visited;
      var stats := InitialStats(e, partIndex);
      var checkpoint := w.BeginBatch();
      GoodStart(e, partIndex, from, w.PrivateEof());
      s := State(from, stats, checkpoint, from, stats, 0, w.PrivateEof(), false);
    }

    /** Whether the loop head must measure the batch now. */
    predicate BatchDue()
      reads this, writer
    {
      var privateEof := writer.PrivateEof();
      && !s.exactReplay
      && s.batchAttempts != 0
      && writer.MessageCount() != 0
      && (|| SaturatingSub(privateEof, s.batchPrivateEof) >= BatchByteTarget(env.maximum, privateEof)
          || s.batchAttempts >= MAX_BATCH_MESSAGES
          || s.index == |env.candidates|)
    }

    /**
     Measures the batch. A batch that overshoots is undone, with statistics and cursor, and exact replay begins;
     any other becomes the point a later rollback returns to.
     */
    method CloseBatch() returns (step: Step)
      requires Valid() && BatchDue()
      modifies this, writer
      ensures step.Continue? ==> Valid()
      ensures step.Continue? && Overshoots(env, part, old(writer.stream)) ==>
        && s == RolledBack(old(s)) && writer.stream == Writables(env, start, old(s.batchIndex))
      ensures step.Continue? && !Overshoots(env, part, old(writer.stream)) ==>
        && s == BatchKept(old(s), CheckpointOf(writer.stream, env.folderCount), env.sizes.privateEof(part, writer.stream))
        && writer.stream == old(writer.stream)
      ensures step.Stop? ==> StopsFor(env, step.ending)
      ensures !step.Full?
    {
      var projected := writer.ProjectedEof();
      if projected.Err? {
        return Stop(EndingOf(projected.error));
      }
      if projected.value > env.maximum && writer.MessageCount() > 1 {
        GoodRollback(env, part, start, writer.stream, s);
        writer.ValidExtends(Writables(env, start, s.batchIndex));
        var undone := writer.RollbackBatch(s.checkpoint, Writables(env, start, s.batchIndex));
        if undone.Err? {
          return Stop(Unfinished(false));
        }
        s := RolledBack(s);
        return Continue;
      }
      var checkpoint := writer.BeginBatch();
      GoodAccept(env, part, start, writer.stream, s, writer.PrivateEof());
      s := BatchKept(s, checkpoint, writer.PrivateEof());
      return Continue;
    }

    /** Hands one message to the writer, measured exactly during replay and unmeasured otherwise. */
    method Place(message: Message) returns (step: Step)
      requires writer.Valid() && writer.partIndex == part && writer.sizes == env.sizes && writer.faults == env.faults
      requires |writer.folders| == env.folderCount && s.index < |env.candidates|
      requires env.translate(env.candidates[s.index]) == Writable(message)
      modifies writer
      ensures !step.Stop? ==> writer.Valid() && |writer.folders| == |old(writer.folders)|
      ensures step.Continue? ==> writer.stream == old(writer.stream) + [message]
      ensures step.Continue? && s.exactReplay ==> Accepted(env, part, writer.stream)
      ensures step.Full? ==> s.exactReplay && writer.stream == old(writer.stream) != []
      ensures step.Full? ==> env.sizes.projected(part, writer.stream + [message]) > env.maximum
      ensures step.Stop? ==> StopsFor(env, step.ending)
    {
      assert message.folder >= env.folderCount ==> Unfit(env, env.candidates[s.index]);
      if s.exactReplay {
        var appended := writer.AppendMessage(message, env.maximum);
        if appended.Err? {
          return Stop(EndingOf(appended.error));
        }
        return if appended.value.PartFull? then Full else Continue;
      }
      var appended := writer.AppendDeferred(message);
      return if appended.Err? then Stop(EndingOf(appended.error)) else Continue;
    }

    /** Appends the translated candidate under the cursor, or finds that the part is full. */
    method AppendCandidate(message: Message) returns (step: Step)
      requires Valid() && s.index < |env.candidates|
      requires env.translate(env.candidates[s.index]) == Writable(message)
      modifies this, writer, ledger`visited
      ensures step.Continue? ==> Valid() && Stepped(env, old(s), s, old(ledger.visited), ledger.visited)
      ensures step.Continue? && s.exactReplay ==> Accepted(env, part, writer.stream)
      ensures step.Full? ==> Valid() && s == old(s) && s.exactReplay && writer.stream == old(writer.stream) != []
      ensures step.Full? ==> ledger.visited == old(ledger.visited)
      ensures step.Full? ==> env.sizes.projected(part, writer.stream + [message]) > env.maximum
      ensures step.Stop? ==> ledger.Valid(env) && StopsFor(env, step.ending)
      ensures ledger.visited >= old(ledger.visited)
    {
      ghost var before := writer.stream;
      step := Place(message);
      if step.Continue? {
        ledger.Visit(env, s.index);
        Record(message, before);
      }
    }

    /** The bookkeeping that goes with an appended message. */
    method Record(message: Message, ghost before: seq<Message>)
      requires s.index < |env.candidates| && env.translate(env.candidates[s.index]) == Writable(message)
      requires Good(env, part, start, before, s) && writer.stream == before + [message]
      requires s.exactReplay ==> Accepted(env, part, writer.stream)
      modifies this
      ensures Good(env, part, start, writer.stream, s)
      ensures s == WithMessage(old(s), message)
    {
      GoodAppend(env, part, start, before, s, message);
      s := WithMessage(s, message);
    }

    method RejectCandidate()
      requires Valid() && s.index == ledger.visited < |env.candidates|
      requires env.translate(env.candidates[s.index]).Unwritable?
      modifies this, ledger
      ensures Valid() && s == old(s).(index := old(s.index) + 1, batchAttempts := old(s.batchAttempts) + 1)
      ensures ledger.visited == old(ledger.visited) + 1
    {
      ledger.Reject(env, s.index);
      Pass(s.batchAttempts + 1);
    }

    /** Moves the cursor past a candidate that contributes no message. */
    method Pass(attempts: nat)
      requires Good(env, part, start, writer.stream, s) && s.index < |env.candidates|
      requires env.translate(env.candidates[s.index]).Unwritable? && s.batchAttempts <= attempts
      modifies this
      ensures Good(env, part, start, writer.stream, s)
      ensures s == old(s).(index := old(s.index) + 1, batchAttempts := attempts)
    {
      GoodSkip(env, part, start, writer.stream, s, attempts);
      s := s.(index := s.index + 1, batchAttempts := attempts);
    }

    /** Translates the candidate under the cursor and appends it, rejects it, or finds the part full. */
    method Advance() returns (step: Step)
      requires Valid() && s.index < |env.candidates|
      modifies this, writer, ledger
      ensures step.Continue? ==> Valid() && Stepped(env, old(s), s, old(ledger.visited), ledger.visited)
      ensures step.Full? ==> Valid() && s == old(s) && s.exactReplay && writer.stream == old(writer.stream) != []
      ensures step.Full? ==> ledger.visited == old(ledger.visited)
      ensures step.Full? ==>
        && env.translate(env.candidates[s.index]).Writable?
        && env.sizes.projected(part, writer.stream + [env.translate(env.candidates[s.index]).message]) > env.maximum
      ensures step.Stop? ==> ledger.Valid(env) && StopsFor(env, step.ending)
      ensures ledger.visited >= old(ledger.visited)
    {
      var key := env.candidates[s.index];
      TerminalMeansRejected(env, ledger.visited, s.index);
      if key in ledger.terminal {
        Pass(s.batchAttempts);
        return Continue;
      }
      var raised := *;
      if raised && env.faults.interrupts {
        return Stop(Unfinished(true));
      }
      match env.translate(key)
      case Broken =>
        assert Unfit(env, key);
        return Stop(Unfinished(false));
      case Unwritable =>
        RejectCandidate();
        return Continue;
      case Writable(message) =>
        step := AppendCandidate(message);
    }

    /** The head of the loop: measures the batch if it is due. */
    method MeasureIfDue() returns (step: Step)
      requires Valid() && Tracked()
      modifies this, writer
      ensures step.Continue? ==> Valid() && Tracked()
      ensures step.Continue? && s.exactReplay && !old(s.exactReplay) ==> s.index <= old(s.index)
      ensures step.Continue? && (s.exactReplay ==> old(s.exactReplay)) ==> s.index == old(s.index) && !BatchDue()
      ensures step.Continue? && old(s.exactReplay) ==> s.exactReplay
      ensures !step.Full? && (step.Stop? ==> StopsFor(env, step.ending))
    {
      if !BatchDue() {
        return Continue;
      }
      ghost var before, stream := s, writer.stream;
      step := CloseBatch();
      if step.Continue? {
        TrackBatch(env, part, start, seen, stream, before, ledger.visited);
      }
    }

    /** The body of the loop: one candidate. */
    method TakeOne() returns (step: Step)
      requires Valid() && Tracked() && s.index < |env.candidates| && !BatchDue()
      modifies this, writer, ledger
      ensures step.Continue? ==> Valid() && Tracked() && s.index == old(s.index) + 1 && s.exactReplay == old(s.exactReplay)
      ensures step.Full? ==> Valid() && EndsWell(env, part, start, s.index)
      ensures step.Full? ==> BatchedPart(env, part, start, seen) == Filled(writer.stream, s.index, ledger.visited)
      ensures step.Stop? ==> ledger.Valid(env) && StopsFor(env, step.ending)
      ensures ledger.visited >= old(ledger.visited)
    {
      ghost var before, visited, stream := s, ledger.visited, writer.stream;
      step := Advance();
      match step
      case Continue =>
        TrackStep(env, part, start, seen, stream, before, visited, writer.stream, s, ledger.visited);
      case Full =>
        TrackFull(env, part, start, seen, stream, before, visited);
      case Stop(_) =>
    }

    /**
     Fills the part with exactly what filling in batches takes. It terminates although the cursor moves back: a
     rollback happens at most once, because exact replay lasts until the part ends.
     */
    method Run() returns (ending: Ending)
      requires Valid() && Tracked() && s.index == start && !s.exactReplay
      modifies this, writer, ledger
      ensures ledger.Valid(env) && ledger.visited >= old(ledger.visited)
      ensures ending.Completed? || StopsFor(env, ending)
      ensures ending.Completed? ==> Valid() && EndsWell(env, part, start, s.index)
      ensures ending.Completed? ==>
        BatchedPart(env, part, start, seen) == Filled(writer.stream, s.index, ledger.visited)
    {
      while true
        invariant Valid() && Tracked() && ledger.visited >= old(ledger.visited)
        decreases if s.exactReplay then 0 else 1, |env.candidates| - s.index
      {
        var raised := *;
        if raised && env.faults.interrupts {
          return Unfinished(true);
        }
        var replaying := s.exactReplay;
        var measured := MeasureIfDue();
        if measured.Stop? {
          return measured.ending;
        }
        if s.exactReplay != replaying {
          continue;
        }
        if s.index == |env.candidates| {
          TrackEnd(env, part, start, seen, writer.stream, s, ledger.visited);
          return Completed;
        }
        var step := TakeOne();
        match step
        case Continue =>
        case Full => return Completed;
        case Stop(stopped) => return stopped;
      }
    }
  }

  // The whole run.

  function Contents(parts: seq<Part>): (r: seq<seq<Message>>)
    ensures |r| == |parts|
    ensures forall i :: 0 <= i < |parts| ==> r[i] == parts[i].messages
  {
    seq(|parts|, i requires 0 <= i < |parts| => parts[i].messages)
  }

  /**
   A published part: not empty, with the statistics of exactly its own messages, within the maximum or
   a marked single message, and marked partial when anything readable was left out of it.
   */
  ghost predicate WellPublished(env: Env, p: Part) {
    && p.messages != []
    && p.stats == StatsOf(env, p.index, p.messages)
    && p.folders == Tables(p.messages, env.folderCount)
    && p.byteLength == env.sizes.finalized(p.index, p.messages)
    && (p.oversize <==> p.byteLength > env.maximum)
    && (p.oversize ==> |p.messages| == 1)
    && Accepted(env, p.index, p.messages)
    && (p.partial <==>
         p.stats.partial || p.stats.omittedFolders != 0 || p.stats.omittedProperties != 0 || p.stats.omittedAttachments != 0)
  }

  /** A part of several messages was projected to fit, but its file is too long. */
  ghost predicate Misprojected(env: Env, part: nat, byteLength: nat, messages: seq<Message>) {
    && |messages| > 1 && env.sizes.projected(part, messages) <= env.maximum
    && byteLength == env.sizes.finalized(part, messages) && byteLength > env.maximum
  }

  /** Why a run ends before the last candidate, when the part with this number was to be filled next. */
  ghost predicate EndsFor(env: Env, part: nat, ending: Ending) {
    match ending
    case Completed => true
    case Unfinished(_) => StopsFor(env, ending)
    case TooManyParts => part > 0xFFFF_FFFF
    case PartExceedsMaximum(index, byteLength) =>
      index == part && exists messages :: Misprojected(env, part, byteLength, messages)
  }

  /** Every part that could have been cut short was publishable there. */
  ghost predicate AllThroughout(env: Env, parts: seq<Part>) {
    forall i :: 0 <= i < |parts| ==> AcceptedThroughout(env, parts[i].index, parts[i].messages)
  }

  /** What is published so far: the writable candidates up to `next`, in well-published, numbered parts. */
  ghost predicate Published(env: Env, first: nat, parts: seq<Part>, next: nat) {
    && next <= |env.candidates|
    && Greedy.Flatten(Contents(parts)) == Writables(env, 0, next)
    && (forall i :: 0 <= i < |parts| ==> parts[i].index == first + i && WellPublished(env, parts[i]))
  }

  /** The parts so far are the first of those that filling in batches takes. */
  ghost predicate InBatches(env: Env, first: nat, parts: seq<Part>, next: nat, visited: nat)
    requires next <= |env.candidates|
  {
    BatchedParts(env, first, 0, 0) == Contents(parts) + BatchedParts(env, first + |parts|, next, visited)
  }

  /** If they were publishable throughout, they are the first of those that filling one message at a time takes. */
  ghost predicate AsGreedy(env: Env, first: nat, parts: seq<Part>, next: nat)
    requires next <= |env.candidates|
  {
    AllThroughout(env, parts) ==>
      GreedyParts(env, first, 0) == Contents(parts) + GreedyParts(env, first + |parts|, next)
  }

  /** What a part's statistics and tables say of its messages, and of the folders omitted from the source. */
  ghost predicate StatsTrue(env: Env, p: Part) {
    && Sums(p.messages, p.stats)
    && |p.folders| == env.folderCount && Filed(p.messages, p.folders)
    && p.stats.omittedFolders == if p.index == 1 then env.omittedFolders else 0
  }

  /** The keys marked as written, part by part. */
  function PublishedKeys(parts: seq<Part>): seq<string> {
    if parts == [] then [] else PublishedKeys(parts[..|parts| - 1]) + parts[|parts| - 1].stats.itemKeys
  }

  ghost predicate KeysTrue(parts: seq<Part>) {
    forall i :: 0 <= i < |parts| ==> parts[i].stats.itemKeys == ItemKeys(parts[i].messages)
  }

  lemma {:induction false} KeysOfParts(parts: seq<Part>)
    requires KeysTrue(parts)
    ensures PublishedKeys(parts) == ItemKeys(Greedy.Flatten(Contents(parts)))
  {
    if parts != [] {
      var n := |parts| - 1;
      KeysOfParts(parts[..n]);
      assert Contents(parts) == Contents(parts[..n]) + [parts[n].messages];
      KeysOfPart(Contents(parts[..n]), parts[n].messages);
    }
  }

  lemma KeysOfPart(blocks: seq<seq<Message>>, messages: seq<Message>)
    ensures ItemKeys(Greedy.Flatten(blocks + [messages])) == ItemKeys(Greedy.Flatten(blocks)) + ItemKeys(messages)
  {
    Greedy.FlattenAppend(blocks, messages);
    ItemKeysJoin(Greedy.Flatten(blocks), messages);
  }

  lemma PartTold(env: Env, p: Part)
    requires WellPublished(env, p)
    ensures StatsTrue(env, p)
  {
    StatsAmountTo(env, p.index, p.messages);
    TablesFiled(p.messages, env.folderCount);
  }

  /** The statistics of every part tell what it holds, and the keys of all messages so far are marked once, in order. */
  ghost predicate Told(env: Env, parts: seq<Part>, next: nat)
    requires next <= |env.candidates|
  {
    && (forall i :: 0 <= i < |parts| ==> StatsTrue(env, parts[i]))
    && PublishedKeys(parts) == ItemKeys(Writables(env, 0, next))
  }

  lemma PartsTold(env: Env, first: nat, parts: seq<Part>, next: nat)
    requires Published(env, first, parts, next)
    ensures Told(env, parts, next)
  {
    forall i | 0 <= i < |parts| ensures StatsTrue(env, parts[i]) {
      PartTold(env, parts[i]);
    }
    assert KeysTrue(parts) by {
      forall i | 0 <= i < |parts| ensures parts[i].stats.itemKeys == ItemKeys(parts[i].messages) {
        assert StatsTrue(env, parts[i]);
      }
    }
    KeysOfParts(parts);
  }

  ghost predicate Progress(env: Env, first: nat, parts: seq<Part>, next: nat, visited: nat) {
    Published(env, first, parts, next) && InBatches(env, first, parts, next, visited) && AsGreedy(env, first, parts, next)
  }

  lemma ProgressStart(env: Env, first: nat)
    ensures Progress(env, first, [], 0, 0)
  {
    assert Contents([]) == [];
    assert [] + GreedyParts(env, first, 0) == GreedyParts(env, first, 0);
    assert [] + BatchedParts(env, first, 0, 0) == BatchedParts(env, first, 0, 0);
  }

  lemma PublishedAppend(env: Env, first: nat, parts: seq<Part>, next: nat, p: Part, end: nat)
    requires Published(env, first, parts, next) && next <= end <= |env.candidates|
    requires p.index == first + |parts| && WellPublished(env, p) && p.messages == Writables(env, next, end)
    ensures Published(env, first, parts + [p], end)
  {
    assert Contents(parts + [p]) == Contents(parts) + [p.messages];
    Greedy.FlattenAppend(Contents(parts), p.messages);
    WritablesJoin(env, 0, next, end);
  }

  lemma AsGreedyAppend(env: Env, first: nat, parts: seq<Part>, next: nat, p: Part, end: nat)
    requires next <= end <= |env.candidates| && AsGreedy(env, first, parts, next)
    requires p.index == first + |parts| && p.messages == Writables(env, next, end) != [] && EndsWell(env, p.index, next, end)
    ensures AsGreedy(env, first, parts + [p], end)
  {
    assert Contents(parts + [p]) == Contents(parts) + [p.messages];
    if AllThroughout(env, parts + [p]) {
      assert (parts + [p])[|parts|] == p;
      assert forall i :: 0 <= i < |parts| ==> (parts + [p])[i] == parts[i];
      SameAsGreedyExactly(env, p.index, next, end);
      GreedyStep(env, Contents(parts), p.index, next, p.messages, end);
    }
  }

  lemma InBatchesAppend(env: Env, first: nat, parts: seq<Part>, next: nat, visited: nat, p: Part, filled: Filled)
    requires next <= |env.candidates| && InBatches(env, first, parts, next, visited)
    requires p.index == first + |parts| && p.messages == filled.messages != []
    requires BatchedPart(env, p.index, next, visited) == filled
    ensures InBatches(env, first, parts + [p], filled.next, filled.visited)
  {
    assert Contents(parts + [p]) == Contents(parts) + [p.messages];
    assert BatchedParts(env, p.index, next, visited)
        == [p.messages] + BatchedParts(env, p.index + 1, filled.next, filled.visited);
  }

  lemma ProgressAppend(env: Env, first: nat, parts: seq<Part>, next: nat, visited: nat, p: Part, end: nat, seen: nat)
    requires Progress(env, first, parts, next, visited) && next <= end <= |env.candidates|
    requires p.index == first + |parts| && WellPublished(env, p) && p.messages == Writables(env, next, end)
    requires EndsWell(env, p.index, next, end)
    requires BatchedPart(env, p.index, next, visited) == Filled(p.messages, end, seen)
    ensures Progress(env, first, parts + [p], end, seen)
  {
    PublishedAppend(env, first, parts, next, p, end);
    AsGreedyAppend(env, first, parts, next, p, end);
    InBatchesAppend(env, first, parts, next, visited, p, Filled(p.messages, end, seen));
  }

  lemma GreedyStep(env: Env, done: seq<seq<Message>>, part: nat, next: nat, messages: seq<Message>, end: nat)
    requires next <= end <= |env.candidates| && messages != []
    requires Fill(env, part, next, []) == (messages, end)
    ensures done + GreedyParts(env, part, next) == (done + [messages]) + GreedyParts(env, part + 1, end)
  {
    assert GreedyParts(env, part, next) == [messages] + GreedyParts(env, part + 1, end);
  }

  /** Nothing is published after the last writable candidate. */
  lemma ProgressRest(env: Env, first: nat, parts: seq<Part>, next: nat, visited: nat, filled: Filled)
    requires Progress(env, first, parts, next, visited) && Writables(env, next, |env.candidates|) == []
    requires BatchedPart(env, first + |parts|, next, visited) == filled && filled.messages == []
    ensures Progress(env, first, parts, |env.candidates|, filled.visited)
  {
    var end := |env.candidates|;
    WritablesJoin(env, 0, next, end);
    assert Writables(env, 0, next) + [] == Writables(env, 0, next);
    FillReachesThroughout(env, first + |parts|, next, end);
    assert BatchedPart(env, first + |parts|, end, filled.visited).messages == [];
  }

  /** Finalizes the part a loop has filled and checks its length once more. */
  method PublishPart(env: Env, loop: PartLoop) returns (ending: Ending, p: Part)
    requires loop.Valid() && loop.env == env && loop.writer.stream != []
    requires Accepted(env, loop.part, loop.writer.stream)
    ensures ending.Completed? ==>
      WellPublished(env, p) && p.index == loop.part && p.messages == loop.writer.stream
    ensures EndsFor(env, loop.part, ending) && !ending.TooManyParts?
  {
    p := Part(loop.part, [], [], loop.s.stats, 0, false, false);
    var finalized := loop.writer.Finalize();
    if finalized.Err? {
      return EndingOf(finalized.error), p;
    }
    var byteLength := finalized.value;
    var oversize := byteLength > env.maximum;
    if oversize && loop.writer.MessageCount() != 1 {
      assert Misprojected(env, loop.part, byteLength, loop.writer.stream);
      return PartExceedsMaximum(loop.part, byteLength), p;
    }
    var raised, failed := *, *;
    if raised && env.faults.interrupts {
      return Unfinished(true), p;
    }
    var stats := loop.s.stats;
    var partial := stats.partial || stats.omittedFolders != 0 || stats.omittedProperties != 0 || stats.omittedAttachments != 0;
    if failed && env.faults.failures {
      return Unfinished(false), p;
    }
    p := Part(loop.part, loop.writer.stream, loop.writer.folders, stats, byteLength, oversize, partial);
    ending := Completed;
  }

  /** Fills, finalizes and publishes one part, or finds that no writable candidate is left. */
  method OnePart(env: Env, part: nat, next: nat, ledger: Ledger)
    returns (ending: Ending, published: Option<Part>, end: nat)
    requires Distinct(env.candidates) && ledger.Valid(env) && next <= ledger.visited
    modifies ledger
    ensures ledger.Valid(env) && EndsFor(env, part, ending) && !ending.TooManyParts?
    ensures !ending.Completed? ==> next <= ledger.visited
    ensures ending.Completed? ==> next <= end <= ledger.visited
    ensures ending.Completed? ==>
      BatchedPart(env, part, next, old(ledger.visited)) == Filled(Writables(env, next, end), end, ledger.visited)
    ensures ending.Completed? && published.None? ==> end == |env.candidates| && Writables(env, next, end) == []
    ensures ending.Completed? && published.Some? ==>
      && next < end && EndsWell(env, part, next, end)
      && published.value.index == part && WellPublished(env, published.value)
      && published.value.messages == Writables(env, next, end)
  {
    published, end := None, next;
    var writer := new Writer(part, env.sizes, env.folderCount, env.faults);
    var loop := new PartLoop(env, part, next, writer, ledger);
    ending := loop.Run();
    if !ending.Completed? {
      return;
    }
    end := loop.s.index;
    if writer.MessageCount() == 0 {
      return;
    }
    var p;
    ending, p := PublishPart(env, loop);
    published := Some(p);
  }

  /** For any size that does not depend on the part and grows at either end: the packer's blocks, and no fewer exist. */
  ghost predicate Packed(env: Env, parts: seq<Part>) {
    forall size: seq<Message> -> nat :: UniformSizes(env, size) ==>
      && Contents(parts) == Greedy.Blocks(size, env.maximum, Writables(env, 0, |env.candidates|))
      && forall blocks :: Greedy.Division(size, env.maximum, Writables(env, 0, |env.candidates|), blocks) ==>
           |parts| <= |blocks|
  }

  /**
   Splits the canonical candidates into parts. However the run ends, it published the first of the parts that
   filling in batches takes, with statistics that tell what each holds; when it completes it published all of them
   and rejected every unwritable candidate exactly once. They are the parts of one-message-at-a-time filling
   exactly when each was publishable at every prefix, which holds whenever appending never makes a file shorter.
   A run that does not complete ends for a cause: an interruption or failure from outside, a candidate that does
   not fit the layout, part numbers running out, or a file longer than it was projected.
   */
  method Split(env: Env, first: nat) returns (ending: Ending, parts: seq<Part>, next: nat, rejected: seq<string>)
    requires Distinct(env.candidates) && first <= U32_MAX
    ensures Published(env, first, parts, next) && Told(env, parts, next)
    ensures first + |parts| <= 0x1_0000_0000
    ensures exists visited :: next <= visited && Accounted(env, rejected, visited)
    ensures ending.Completed? ==> next == |env.candidates| && rejected == RejectedKeys(env, next)
    ensures Contents(parts) <= BatchedParts(env, first, 0, 0)
    ensures ending.Completed? ==> Contents(parts) == BatchedParts(env, first, 0, 0)
    ensures Contents(parts) <= GreedyParts(env, first, 0) <==> AllThroughout(env, parts)
    ensures ending.Completed? ==> (Contents(parts) == GreedyParts(env, first, 0) <==> AllThroughout(env, parts))
    ensures GrowingSizes(env) ==> AllThroughout(env, parts)
    ensures ending.Completed? ==> Packed(env, parts)
    ensures EndsFor(env, first + |parts|, ending)
  {
    var ledger := new Ledger(env);
    ghost var visited;
    ending, parts, next, visited := SplitInto(env, first, ledger);
    rejected := ledger.rejected;
    assert Accounted(env, rejected, ledger.visited);
    assert ending.Completed? ==> ledger.visited == next;
    PartsTold(env, first, parts, next);
    Concluded(env, first, parts, next, visited);
  }

  /** What the progress of a run says at its end, and of one that covered every candidate. */
  lemma Concluded(env: Env, first: nat, parts: seq<Part>, next: nat, visited: nat)
    requires Progress(env, first, parts, next, visited)
    ensures Contents(parts) <= BatchedParts(env, first, 0, 0)
    ensures Contents(parts) <= GreedyParts(env, first, 0) <==> AllThroughout(env, parts)
    ensures GrowingSizes(env) ==> AllThroughout(env, parts)
    ensures next == |env.candidates| ==>
      && Contents(parts) == BatchedParts(env, first, 0, 0)
      && (Contents(parts) == GreedyParts(env, first, 0) <==> AllThroughout(env, parts))
      && Packed(env, parts)
  {
    GreedyExactly(env, first, parts, next);
    if GrowingSizes(env) {
      forall i | 0 <= i < |parts| ensures AcceptedThroughout(env, parts[i].index, parts[i].messages) {
        GrowingThroughout(env, parts[i].index, parts[i].messages);
      }
    }
    if next == |env.candidates| {
      NothingLeft(env, first + |parts|, visited);
      PackedWhenUniform(env, first, parts);
    }
  }

  /** The next part, or nothing more when no writable candidate is left. */
  method PartAfter(env: Env, ghost first: nat, ghost parts: seq<Part>, next: nat, part: nat, ledger: Ledger)
    returns (ending: Ending, more: seq<Part>, end: nat)
    requires Distinct(env.candidates) && ledger.Valid(env) && next <= ledger.visited
    requires Progress(env, first, parts, next, ledger.visited) && part == first + |parts| && next < |env.candidates|
    modifies ledger
    ensures ledger.Valid(env) && EndsFor(env, part, ending) && !ending.TooManyParts?
    ensures next <= ledger.visited && |more| <= 1
    ensures ending.Completed? ==> Progress(env, first, parts + more, end, ledger.visited) && next < end <= ledger.visited
    ensures ending.Completed? && more == [] ==> end == |env.candidates|
  {
    ghost var visited := ledger.visited;
    var published;
    ending, published, end := OnePart(env, part, next, ledger);
    more := [];
    if ending.Completed? && published.None? {
      assert parts + more == parts;
      ProgressRest(env, first, parts, next, visited, Filled([], end, ledger.visited));
    } else if ending.Completed? {
      more := [published.value];
      ProgressAppend(env, first, parts, next, visited, published.value, end, ledger.visited);
    }
  }

  method SplitInto(env: Env, first: nat, ledger: Ledger)
    returns (ending: Ending, parts: seq<Part>, next: nat, ghost visited: nat)
    requires Distinct(env.candidates) && first <= U32_MAX && ledger.Valid(env) && ledger.visited == 0
    modifies ledger
    ensures Progress(env, first, parts, next, visited) && first + |parts| <= 0x1_0000_0000
    ensures ledger.Valid(env) && next <= ledger.visited
    ensures ending.Completed? ==> next == |env.candidates|
    ensures EndsFor(env, first + |parts|, ending)
  {
    parts, next, visited := [], 0, 0;
    ProgressStart(env, first);
    var part := first;
    while next < |env.candidates|
      invariant Progress(env, first, parts, next, visited) && visited == ledger.visited
      invariant ledger.Valid(env) && next <= ledger.visited
      invariant part == first + |parts| <= U32_MAX
      decreases |env.candidates| - next
    {
      var raised := *;
      if raised && env.faults.interrupts {
        return Unfinished(true), parts, next, visited;
      }
      var more, end;
      ending, more, end := PartAfter(env, first, parts, next, part, ledger);
      if !ending.Completed? {
        return;
      }
      parts, next, visited := parts + more, end, ledger.visited;
      if more == [] {
        continue;
      }
      if part + 1 > U32_MAX {
        return TooManyParts, parts, next, visited;
      }
      part := part + 1;
    }
    ending := Completed;
  }

  lemma NothingLeft(env: Env, part: nat, visited: nat)
    ensures BatchedParts(env, part, |env.candidates|, visited) == []
    ensures GreedyParts(env, part, |env.candidates|) == []
  {
    assert Writables(env, |env.candidates|, |env.candidates|) == [];
  }

  /** Published parts begin the greedy ones exactly when each was publishable throughout. */
  lemma GreedyExactly(env: Env, first: nat, parts: seq<Part>, next: nat)
    requires Published(env, first, parts, next) && AsGreedy(env, first, parts, next)
    ensures Contents(parts) <= GreedyParts(env, first, 0) <==> AllThroughout(env, parts)
  {
    if Contents(parts) <= GreedyParts(env, first, 0) {
      forall i | 0 <= i < |parts| ensures AcceptedThroughout(env, parts[i].index, parts[i].messages) {
        assert Contents(parts)[i] == parts[i].messages;
        GreedyPartsThroughout(env, first, 0, i);
      }
    }
  }

  lemma PackedWhenUniform(env: Env, first: nat, parts: seq<Part>)
    requires GrowingSizes(env) ==> Contents(parts) == GreedyParts(env, first, 0)
    ensures Packed(env, parts)
  {
    forall size: seq<Message> -> nat | UniformSizes(env, size)
      ensures Contents(parts) == Greedy.Blocks(size, env.maximum, Writables(env, 0, |env.candidates|))
      ensures forall blocks :: Greedy.Division(size, env.maximum, Writables(env, 0, |env.candidates|), blocks) ==>
        |parts| <= |blocks|
    {
      UniformGrowing(env, size);
      GreedyPartsAreBlocks(env, size, first, 0);
      forall blocks | Greedy.Division(size, env.maximum, Writables(env, 0, |env.candidates|), blocks)
        ensures |parts| <= |blocks|
      {
        GreedyPartsFewest(env, size, first, 0, blocks);
        assert |Contents(parts)| == |parts|;
      }
    }
  }
}
