/** Every interleaving of one appending caller, the chained pushes it causes, the spill writer
    that reads the queue, and flush. Each action is one stretch of code between two awaits. */
module SpillPipeline {
  import opened Wrappers
  import opened Utf8
  import opened OutputRetention
  import opened ChunkQueue

  const PRODUCER: Party := 0
  const CONSUMER: Party := 1

  /** The push at the head of the enqueue chain. */
  datatype Producer = Idle | Trying(chunk: Bytes) | Parked(chunk: Bytes)

  /** The blob writer: it reads until told it is done, or fails anywhere. A writer that fails
      while its read is parked leaves that read behind in the queue. */
  datatype Writer =
    | Ready | Waiting | Resumed(item: Item) | Drained | Committed
    | Failed(leftReader: bool) | Rejected

  datatype Phase = Open | Flushing | QueueClosed | Finished

  datatype System = System(
    config: Config,
    log: seq<Chunk>,          // appended so far
    pending: seq<Chunk>,      // enqueued, push not begun
    producer: Producer,
    queue: Queue,
    writer: Writer,
    delivered: seq<Chunk>,    // handed to the writer so far
    phase: Phase)
  {
    predicate Started() { Spilling(config, Flatten(log)) }

    /** Has the append in progress, if any, been awaited? */
    predicate Awaited() { pending == [] && producer == Idle }

    function InFlight(): seq<Chunk> {
      if producer == Idle then [] else [producer.chunk]
    }
  }

  datatype Action =
    | Append(chunk: Bytes) | BeginPush | TryPush
    | Read | Resume | Commit | Fail | CatchFailure
    | BeginFlush | CloseQueue | FinishFlush

  function Initial(config: Config): System {
    System(config, [], [], Idle, EMPTY, Ready, [], Open)
  }

  function CloseAndWake(s: System): System {
    s.(queue := Closed(s.queue),
       producer := if !s.queue.closed && s.queue.writers != [] && s.producer.Parked?
                   then Trying(s.producer.chunk) else s.producer,
       writer := if !s.queue.closed && s.queue.readers != [] && s.writer.Waiting?
                 then Resumed(Done) else s.writer)
  }

  function Apply(s: System, a: Action): Option<System> {
    match a
    case Append(chunk) =>
      if s.phase != Open || !s.Awaited() then None
      else Some(s.(log := s.log + [chunk], pending := Sends(s.config, s.log, chunk)))
    case BeginPush =>
      if s.pending == [] || s.producer != Idle then None
      else Some(s.(producer := Trying(s.pending[0]), pending := s.pending[1..]))
    case TryPush =>
      if !s.producer.Trying? then None
      else
        var (queue, outcome) := Pushed(s.queue, PRODUCER, s.producer.chunk);
        Some(match outcome
             case WriterParked => s.(queue := queue, producer := Parked(s.producer.chunk))
             case Dropped => s.(producer := Idle)
             case Buffered => s.(queue := queue, producer := Idle)
             case HandedTo(_) =>
               s.(queue := queue, producer := Idle, delivered := s.delivered + [s.producer.chunk],
                  writer := if s.writer == Waiting then Resumed(Value(s.producer.chunk)) else Failed(false)))
    case Read =>
      if !s.Started() || s.writer != Ready then None
      else
        var (queue, outcome, woken) := Taken(s.queue, CONSUMER);
        var producer := if woken != [] && s.producer.Parked? then Trying(s.producer.chunk) else s.producer;
        Some(match outcome
             case Got(Value(chunk)) =>
               s.(queue := queue, producer := producer, delivered := s.delivered + [chunk])
             case Got(Done) => s.(queue := queue, producer := producer, writer := Drained)
             case ReaderParked => s.(queue := queue, producer := producer, writer := Waiting))
    case Resume =>
      if !s.writer.Resumed? then None
      else Some(s.(writer := if s.writer.item.Value? then Ready else Drained))
    case Commit =>
      if s.writer != Drained then None else Some(s.(writer := Committed))
    case Fail =>
      if !s.Started() || s.writer.Committed? || s.writer.Failed? || s.writer.Rejected? then None
      else Some(s.(writer := Failed(s.writer.Waiting?)))
    case CatchFailure =>
      if !s.writer.Failed? then None else Some(CloseAndWake(s).(writer := Rejected))
    case BeginFlush =>
      if s.phase != Open || !s.Awaited() then None else Some(s.(phase := Flushing))
    case CloseQueue =>
      if s.phase != Flushing || !s.Awaited() then None
      else if !s.Started() then Some(s.(phase := QueueClosed))
      else Some(CloseAndWake(s).(phase := QueueClosed))
    case FinishFlush =>
      if s.phase != QueueClosed then None
      else if s.Started() && s.writer != Committed && s.writer != Rejected then None
      else Some(s.(phase := Finished))
  }

  /** The state after a whole schedule; nothing if some action of it was not possible. */
  function Run(config: Config, schedule: seq<Action>): Option<System> {
    if schedule == [] then Some(Initial(config)) else
    var last := |schedule| - 1;
    match Run(config, schedule[..last])
    case None => None
    case Some(s) => Apply(s, schedule[last])
  }

  // ---------------------------------------------------------------- the invariant

  predicate GaveUp(w: Writer) { w.Failed? || w.Rejected? }

  /** Who is parked, and why. */
  predicate Parking(s: System) {
    && |s.queue.chunks| <= CAPACITY
    && s.queue.writers == (if s.producer.Parked? then [PRODUCER] else [])
    && s.queue.readers ==
         (if !s.queue.closed && (s.writer == Waiting || s.writer == Failed(true)) then [CONSUMER] else [])
    && (s.writer == Waiting ==> !s.queue.closed)
    && (s.producer.Parked? ==> |s.queue.chunks| == CAPACITY)
    && (s.queue.readers != [] ==> s.queue.chunks == [])
    && (s.queue.closed ==> s.queue.writers == [])
  }

  /** Where every byte of the run is. */
  predicate Accounting(s: System) {
    && (!s.queue.closed ==>
          s.delivered + s.queue.chunks + s.InFlight() + s.pending == if s.Started() then s.log else [])
    && s.delivered + s.queue.chunks <= s.log
    && (s.queue.closed && !GaveUp(s.writer) ==> s.delivered + s.queue.chunks == s.log)
  }

  /** How far the writer and flush have come. */
  predicate Progressing(s: System) {
    && (!s.Started() ==> s.writer == Ready && s.pending == [] && s.producer == Idle && s.queue == EMPTY)
    && (s.writer == Resumed(Done) || s.writer == Drained || s.writer == Committed ==>
          s.queue.closed && s.queue.chunks == [])
    && (s.writer == Rejected ==> s.queue.closed)
    && (s.phase != Open && s.phase != Flushing ==> s.Awaited())
    && (s.phase != Open ==> s.pending == [] && s.producer == Idle)
    && (s.Started() && (s.phase == QueueClosed || s.phase == Finished) ==> s.queue.closed)
    && (s.queue.closed && !GaveUp(s.writer) ==> s.phase == QueueClosed || s.phase == Finished)
    && (s.phase == Finished && s.Started() ==> s.writer == Committed || s.writer == Rejected)
  }

  predicate Invariant(s: System) { Parking(s) && Accounting(s) && Progressing(s) }

  lemma AppendKeeps(s: System, chunk: Bytes)
    requires Invariant(s) && Apply(s, Append(chunk)).Some?
    ensures Invariant(Apply(s, Append(chunk)).value)
  {
    FlattenPush(s.log, chunk);
    var t := Apply(s, Append(chunk)).value;
    if !s.Started() && t.Started() {
      assert s.delivered == [];
      assert t.delivered + t.queue.chunks + t.InFlight() + t.pending == t.log;
    }
  }

  lemma TryPushKeeps(s: System)
    requires Invariant(s) && s.producer.Trying?
    ensures Invariant(Apply(s, TryPush).value)
  {
    var t := Apply(s, TryPush).value;
    var (_, outcome) := Pushed(s.queue, PRODUCER, s.producer.chunk);
    if outcome.HandedTo? || outcome.Buffered? {
      assert s.delivered + s.queue.chunks + s.InFlight() + s.pending
          == t.delivered + t.queue.chunks + t.InFlight() + t.pending;
    }
  }

  lemma ReadKeeps(s: System)
    requires Invariant(s) && Apply(s, Read).Some?
    ensures Invariant(Apply(s, Read).value)
  {
    var t := Apply(s, Read).value;
    assert t.delivered + t.queue.chunks == s.delivered + s.queue.chunks;
  }

  lemma CloseKeeps(s: System)
    requires Invariant(s)
    ensures s.writer.Failed? ==> Invariant(Apply(s, CatchFailure).value)
    ensures s.phase == Flushing && s.Awaited() ==> Invariant(Apply(s, CloseQueue).value)
  {
    if s.phase == Flushing && s.Awaited() {
      assert s.delivered + s.queue.chunks + s.InFlight() + s.pending == s.delivered + s.queue.chunks;
    }
  }

  /** Every action keeps the invariant. */
  lemma ApplyKeeps(s: System, a: Action)
    requires Invariant(s) && Apply(s, a).Some?
    ensures Invariant(Apply(s, a).value)
  {
    match a {
      case Append(chunk) => AppendKeeps(s, chunk);
      case TryPush => TryPushKeeps(s);
      case Read => ReadKeeps(s);
      case CatchFailure => CloseKeeps(s);
      case CloseQueue => CloseKeeps(s);
      case BeginPush => BeginPushKeeps(s);
      case BeginFlush => FlushKeeps(s, a);
      case FinishFlush => FlushKeeps(s, a);
      case _ => WriterKeeps(s, a);
    }
  }

  lemma BeginPushKeeps(s: System)
    requires Invariant(s) && Apply(s, BeginPush).Some?
    ensures Invariant(Apply(s, BeginPush).value)
  {
    var t := Apply(s, BeginPush).value;
    assert s.delivered + s.queue.chunks + s.InFlight() + s.pending
        == t.delivered + t.queue.chunks + t.InFlight() + t.pending;
  }

  lemma FlushKeeps(s: System, a: Action)
    requires Invariant(s) && Apply(s, a).Some? && (a.BeginFlush? || a.FinishFlush?)
    ensures Invariant(Apply(s, a).value)
  {
  }

  lemma WriterKeeps(s: System, a: Action)
    requires Invariant(s) && Apply(s, a).Some? && (a.Resume? || a.Commit? || a.Fail?)
    ensures Invariant(Apply(s, a).value)
  {
  }

  lemma ApplyKeepsConfig(s: System, a: Action)
    requires Apply(s, a).Some?
    ensures Apply(s, a).value.config == s.config
  {
  }

  /** A state that a schedule can reach with this configuration. */
  predicate Sound(config: Config, s: System) { s.config == config && Invariant(s) }

  lemma {:induction false} RunInvariant(config: Config, schedule: seq<Action>)
    ensures Run(config, schedule).Some? ==> Sound(config, Run(config, schedule).value)
  {
    if schedule == [] {
    } else {
      var last := |schedule| - 1;
      RunInvariant(config, schedule[..last]);
      if Run(config, schedule).Some? {
        var before := Run(config, schedule[..last]).value;
        ApplyKeeps(before, schedule[last]);
        ApplyKeepsConfig(before, schedule[last]);
        assert Run(config, schedule) == Apply(before, schedule[last]);
      }
    }
  }

  // ---------------------------------------------------------------- what every schedule guarantees

  /** Whatever the schedule: the writer has been given a prefix of what was appended, at most
      sixteen chunks are buffered, and a reader and a writer are never parked together. */
  lemma EveryScheduleIsSafe(config: Config, schedule: seq<Action>)
    requires Run(config, schedule).Some?
    ensures Run(config, schedule).value.config == config
    ensures var s := Run(config, schedule).value;
      && s.delivered <= s.log
      && Flatten(s.delivered) <= Flatten(s.log)
      && |s.queue.chunks| <= CAPACITY
      && (s.queue.readers == [] || s.queue.writers == [])
  {
    RunInvariant(config, schedule);
    var s := Run(config, schedule).value;
    var rest := s.log[|s.delivered|..];
    assert s.log == s.delivered + rest;
    FlattenConcat(s.delivered, rest);
  }

  /** Whatever the schedule: a writer that was told it is done without failing has been given the whole
      input, in order. This includes what a lazy spill replayed. */
  lemma BlobIsTheWholeInput(config: Config, schedule: seq<Action>)
    requires Run(config, schedule).Some?
    ensures var s := Run(config, schedule).value;
      s.writer == Drained || s.writer == Committed ==>
        s.delivered == s.log && Flatten(s.delivered) == Flatten(s.log) && s.phase != Open
  {
    RunInvariant(config, schedule);
    var s := Run(config, schedule).value;
    if s.writer == Drained || s.writer == Committed {
      assert s.delivered + s.queue.chunks == s.delivered;
    }
  }

  /** The result once flush has finished, in any state that keeps the invariant, as every state that a
      schedule reaches does; `ref` is what the writer returns if it commits. */
  method ResultOfRun(s: System, ref: string, error: string) returns (r: Result)
    requires Invariant(s) && s.phase == Finished
    ensures ResultStandsFor(s, r, ref, error)
  {
    assert s.writer == Committed ==> s.delivered + s.queue.chunks == s.delivered;
    var sent;
    r, sent := RetainOutput(s.log, s.config, if s.writer == Committed then Some(ref) else None, error);
  }

  /** Any blob reference in the result stands for exactly the bytes it describes, and a started spill
      without one has reported an error. */
  ghost predicate ResultStandsFor(s: System, r: Result, ref: string, error: string) {
    && Previews(s.config, Flatten(s.log), r.preview) && r.digestOf == Flatten(s.log)
    && (r.blobRef.Some? ==> s.writer == Committed && r.blobRef == Some(ref) && Flatten(s.delivered) == r.digestOf)
    && (s.Started() && ref != "" && error != "" ==> (r.blobRef.Some? <==> r.blobError.None?))
    && (!s.Started() ==> r.blobRef.None? && r.blobError.None? && s.delivered == [])
  }

  /** What has been handed to the queue, in any state that a schedule reaches, is what appending handed
      over, append by append. */
  lemma EnqueuedIsSent(s: System)
    requires Invariant(s) && !s.queue.closed
    ensures s.delivered + s.queue.chunks + s.InFlight() + s.pending == AllSends(s.config, s.log)
  {
    AllSendsIsTheLog(s.config, s.log);
  }

  // ---------------------------------------------------------------- flush always completes

  function WriterWork(w: Writer): nat {
    match w
    case Ready => 10 case Waiting => 9 case Resumed(_) => 11 case Drained => 8
    case Committed => 0 case Failed(_) => 5 case Rejected => 0
  }

  function PhaseWork(p: Phase): nat {
    match p case Open => 12 case Flushing => 8 case QueueClosed => 4 case Finished => 0
  }

  function ProducerWork(p: Producer): nat {
    match p case Idle => 0 case Trying(_) => 5 case Parked(_) => 4
  }

  /** An upper bound on the actions left if nothing more is appended. */
  function WorkLeft(s: System): nat {
    6 * |s.pending| + ProducerWork(s.producer) + 2 * |s.queue.chunks| + WriterWork(s.writer) + PhaseWork(s.phase)
  }

  /** Every action but an append uses up work: between two appends a run is finite. */
  lemma ApplyUsesWork(s: System, a: Action)
    requires Invariant(s) && Apply(s, a).Some? && !a.Append?
    ensures WorkLeft(Apply(s, a).value) < WorkLeft(s)
  {
    match a {
      case TryPush => TryPushUsesWork(s);
      case Read => ReadUsesWork(s);
      case _ =>
    }
  }

  lemma TryPushUsesWork(s: System)
    requires Invariant(s) && s.producer.Trying?
    ensures WorkLeft(Apply(s, TryPush).value) < WorkLeft(s)
  {
  }

  lemma ReadUsesWork(s: System)
    requires Invariant(s) && Apply(s, Read).Some?
    ensures WorkLeft(Apply(s, Read).value) < WorkLeft(s)
  {
  }

  /** And until flush has finished something other than an append or a failure can always
      happen: nobody waits forever for somebody who waits. */
  lemma SomethingCanHappen(s: System) returns (a: Action)
    requires Invariant(s) && s.phase != Finished
    ensures !a.Append? && !a.Fail? && Apply(s, a).Some?
  {
    a := if s.producer.Trying? then TryPush
         else if s.writer == Ready && s.Started() then Read
         else if s.writer.Resumed? then Resume
         else if s.writer == Drained then Commit
         else if s.writer.Failed? then CatchFailure
         else if s.producer == Idle && s.pending != [] then BeginPush
         else if s.phase == Open then BeginFlush
         else if s.phase == Flushing then CloseQueue
         else FinishFlush;
  }

  function RunFrom(s: System, more: seq<Action>): Option<System>
    decreases |more|
  {
    if more == [] then Some(s) else
    match Apply(s, more[0])
    case None => None
    case Some(t) => RunFrom(t, more[1..])
  }

  lemma {:induction false} FinishFrom(s: System) returns (more: seq<Action>)
    requires Invariant(s)
    ensures |more| <= WorkLeft(s) && RunFrom(s, more).Some?
    ensures var t := RunFrom(s, more).value;
      Invariant(t) && t.phase == Finished && t.log == s.log && t.config == s.config
    decreases WorkLeft(s)
  {
    if s.phase == Finished {
      return [];
    }
    var a, next := StepOnce(s);
    var rest := FinishFrom(next);
    more := [a] + rest;
    assert more[1..] == rest;
  }

  lemma StepOnce(s: System) returns (a: Action, next: System)
    requires Invariant(s) && s.phase != Finished
    ensures Apply(s, a) == Some(next) && Invariant(next) && WorkLeft(next) < WorkLeft(s)
    ensures next.log == s.log && next.config == s.config
  {
    a := SomethingCanHappen(s);
    next := Apply(s, a).value;
    ApplyKeeps(s, a);
    ApplyUsesWork(s, a);
    OnlyAppendAppends(s, a);
  }

  lemma OnlyAppendAppends(s: System, a: Action)
    requires Apply(s, a).Some? && !a.Append?
    ensures Apply(s, a).value.log == s.log && Apply(s, a).value.config == s.config
  {
  }

  /** So whatever happened before, letting things happen finishes the flush within the work left,
      and then a started spill either holds the whole input or has reported its failure. */
  lemma FlushCompletes(config: Config, schedule: seq<Action>) returns (more: seq<Action>)
    requires Run(config, schedule).Some?
    ensures var s := Run(config, schedule).value;
      && |more| <= WorkLeft(s) && RunFrom(s, more).Some?
      && var t := RunFrom(s, more).value;
         && t.phase == Finished && t.log == s.log
         && (t.Started() ==> (t.writer == Committed && t.delivered == s.log) || t.writer == Rejected)
  {
    RunInvariant(config, schedule);
    var s := Run(config, schedule).value;
    more := FinishFrom(s);
    var t := RunFrom(s, more).value;
    if t.Started() && t.writer == Committed {
      assert t.delivered + t.queue.chunks == t.delivered;
    }
  }
}
