/** What reaches the client of a stream, chunk by chunk over whole runs, and when the stream closes. */
module StreamWire {
  import opened Wrappers
  import opened StreamState
  import opened StreamRuns

  /** The chunks written, in order. */
  function Sent(log: seq<SinkEvent>): seq<Chunk> {
    if |log| == 0 then [] else
    var last := log[|log| - 1];
    Sent(log[..|log| - 1]) + if last.Wrote? then [last.chunk] else []
  }

  predicate Writable(s: Stream) { !s.closed && s.attached && !s.backpressured }

  predicate Newer(s: Stream, result: LoadResult) { result.Snapshot? && s.lastSent < result.revision }

  /** What the return of a load owes the client: word of a revocation, or a newer snapshot. */
  function DueOnReturn(s: Stream, result: LoadResult): seq<Chunk> {
    if !Writable(s) then []
    else if result.NotFound? then [RevokedChunk]
    else if Newer(s, result) then [SceneChunk(result.revision)]
    else []
  }

  /** What a step owes the client: a beat, a newer snapshot, word of the revocation, or the snapshot kept back. */
  ghost function Due(w: World, step: Step): seq<Chunk>
    requires Enabled(w, step)
  {
    var s := w.stream;
    match step
    case Beat(_) => if Writable(s) then [HeartbeatChunk] else []
    case LoadReturns(_) => DueOnReturn(s, w.flight.value.result)
    case DrainSink(_) => if !s.closed && s.pending.Some? then [SceneChunk(s.pending.value)] else []
    case AttachSink(_) => if !s.closed && !s.attached && s.pending.Some? then [SceneChunk(s.pending.value)] else []
    case _ => []
  }

  lemma SentMore(log: seq<SinkEvent>, e: SinkEvent)
    ensures Sent(log + [e]) == Sent(log) + if e.Wrote? then [e.chunk] else []
  {
    assert (log + [e])[..|log|] == log;
  }

  lemma CloseSends(s: Stream)
    ensures Sent(s.Close().log) == Sent(s.log) && Sent(s.OnLost().log) == Sent(s.log)
    ensures Sent(s.StallFires().log) == Sent(s.log)
  {
    SentMore(s.log, Ended);
  }

  lemma FlushSends(s: Stream, revision: nat, accepts: bool)
    ensures Sent(s.Flush(revision, accepts).log) == Sent(s.log) + if Writable(s) then [SceneChunk(revision)] else []
  {
    SentMore(s.log, Wrote(SceneChunk(revision), accepts));
  }

  lemma BeatSends(s: Stream, accepts: bool)
    ensures Sent(s.Heartbeat(accepts).log) == Sent(s.log) + if Writable(s) then [HeartbeatChunk] else []
  {
    SentMore(s.log, Wrote(HeartbeatChunk, accepts));
  }

  lemma DrainSends(s: Stream, accepts: bool)
    requires Tidy(s) && s.attached
    ensures Sent(s.Drain(accepts).log) ==
      Sent(s.log) + if !s.closed && s.pending.Some? then [SceneChunk(s.pending.value)] else []
  {
    SentMore(s.log, Drained);
    if !s.closed && s.pending.Some? {
      var drained := s.(log := s.log + [Drained], backpressured := false, stallArmed := false, pending := None);
      FlushSends(drained, s.pending.value, accepts);
    }
  }

  lemma AttachSends(s: Stream, accepts: bool)
    requires Tidy(s)
    ensures Sent(s.Attach(accepts).log) ==
      Sent(s.log) + if !s.closed && !s.attached && s.pending.Some? then [SceneChunk(s.pending.value)] else []
  {
    if !s.closed && !s.attached && s.pending.Some? {
      FlushSends(s.(attached := true, pending := None), s.pending.value, accepts);
    }
  }

  lemma DeliverSends(s: Stream, revision: nat, accepts: bool)
    ensures Sent(s.Deliver(revision, accepts).log) ==
      Sent(s.log) + if Writable(s) && s.lastSent < revision then [SceneChunk(revision)] else []
  {
    if s.lastSent < revision {
      FlushSends(s.(lastSent := revision), revision, accepts);
    }
  }

  lemma RevokeSends(s: Stream, accepts: bool)
    ensures Sent(s.Revoke(accepts).log) == Sent(s.log) + if Writable(s) then [RevokedChunk] else []
  {
    SentMore(s.log, Wrote(RevokedChunk, accepts));
    SentMore(s.log, Ended);
    SentMore(s.log + [Wrote(RevokedChunk, accepts)], Ended);
  }

  lemma OpeningReturnSends(s: Stream, result: LoadResult, accepts: bool)
    requires !s.attached
    ensures Sent(s.ReturnOpening(result, accepts).log) == Sent(s.log) + DueOnReturn(s, result)
  {
    if result.Snapshot? {
      DeliverSends(s.(campaignId := Some(result.campaignId)), result.revision, accepts);
    }
  }

  lemma ReturnSends(s: Stream, result: LoadResult, accepts: bool)
    requires Tidy(s)
    ensures Sent(s.Return(result, accepts).log) == Sent(s.log) + DueOnReturn(s, result)
  {
    if s.opening {
      OpeningReturnSends(s, result, accepts);
    } else if !s.closed {
      match result
      case NotFound => RevokeSends(s, accepts);
      case LoadError => CloseSends(s);
      case Snapshot(_, revision) => DeliverSends(s, revision, accepts);
    }
  }

  lemma ElsewhereSendsNothing(w: World, step: Step)
    requires Enabled(w, step) && (Elsewhere(step) || step.Notify?)
    ensures Next(w, step).stream.log == w.stream.log && Next(w, step).stream.closed == w.stream.closed
  {
  }

  lemma StepSends(w: World, step: Step)
    requires Sound(w) && Enabled(w, step)
    ensures Sent(Next(w, step).stream.log) == Sent(w.stream.log) + Due(w, step)
  {
    if Elsewhere(step) || step.Notify? {
      ElsewhereSendsNothing(w, step);
    } else if step.LoadReturns? {
      ReturnSends(w.stream, w.flight.value.result, step.accepts);
    } else {
      SinkStepSends(w, step);
    }
  }

  lemma SinkStepSends(w: World, step: Step)
    requires Sound(w) && Enabled(w, step) && TouchesSink(step)
    ensures Sent(Next(w, step).stream.log) == Sent(w.stream.log) + Due(w, step)
  {
    match step
    case Beat(accepts) => BeatSends(w.stream, accepts);
    case DrainSink(accepts) => DrainSends(w.stream, accepts);
    case AttachSink(accepts) => AttachSends(w.stream, accepts);
    case _ => CloseSends(w.stream);
  }

  ghost function AllDue(w: World, steps: seq<Step>): seq<Chunk>
    requires IsRun(w, steps)
    decreases |steps|
  {
    if |steps| == 0 then [] else Due(w, steps[0]) + AllDue(Next(w, steps[0]), steps[1..])
  }

  lemma Regroup(a: seq<Chunk>, b: seq<Chunk>, c: seq<Chunk>)
    ensures (a + b) + c == a + (b + c)
  {
  }

  lemma {:induction false} RunSends(w: World, steps: seq<Step>)
    requires Sound(w) && IsRun(w, steps)
    ensures Sent(After(w, steps).stream.log) == Sent(w.stream.log) + AllDue(w, steps)
    decreases |steps|
  {
    if |steps| > 0 {
      var v, rest := Next(w, steps[0]), steps[1..];
      StepSends(w, steps[0]);
      StepSound(w, steps[0]);
      RunSends(v, rest);
      Regroup(Sent(w.stream.log), Due(w, steps[0]), AllDue(v, rest));
    }
  }

  /** Over every run the client is sent exactly what was due, in order: nothing else, and nothing twice. */
  lemma ClientIsSentWhatIsDue(
      request: Request, campaignId: string, committed: nat, channel: seq<SceneEvent>, steps: seq<Step>)
    requires IsRun(Start(request, campaignId, committed, channel), steps)
    ensures Sent(After(Start(request, campaignId, committed, channel), steps).stream.log) ==
      AllDue(Start(request, campaignId, committed, channel), steps)
  {
    RunSends(Start(request, campaignId, committed, channel), steps);
  }

  lemma ReturnCloses(s: Stream, result: LoadResult, accepts: bool)
    ensures s.Return(result, accepts).closed <==> s.closed || !result.Snapshot?
  {
    if result.Snapshot? {
      DeliverProgress(s, result.revision, accepts);
      DeliverProgress(s.(campaignId := Some(result.campaignId)), result.revision, accepts);
    }
  }

  lemma DrainStaysOpen(s: Stream, accepts: bool)
    ensures s.Drain(accepts).closed == s.closed
  {
  }

  lemma AttachStaysOpen(s: Stream, accepts: bool)
    ensures s.Attach(accepts).closed == s.closed
  {
  }

  lemma SinkStepCloses(w: World, step: Step)
    requires Enabled(w, step) && TouchesSink(step)
    ensures Next(w, step).stream.closed <==>
      w.stream.closed || step.Stall? || step.ClientLeaves? || step.HubLost?
  {
    match step
    case DrainSink(accepts) => DrainStaysOpen(w.stream, accepts);
    case AttachSink(accepts) => AttachStaysOpen(w.stream, accepts);
    case _ =>
  }

  /** A stream closes when it stalls, its client leaves, the hub is lost or a load brings anything but a snapshot. */
  lemma ClosesExactlyWhen(w: World, step: Step)
    requires Enabled(w, step)
    ensures Next(w, step).stream.closed <==>
      || w.stream.closed || step.Stall? || step.ClientLeaves? || step.HubLost?
      || (step.LoadReturns? && !w.flight.value.result.Snapshot?)
  {
    if Elsewhere(step) || step.Notify? {
      ElsewhereSendsNothing(w, step);
    } else if step.LoadReturns? {
      ReturnCloses(w.stream, w.flight.value.result, step.accepts);
    } else {
      SinkStepCloses(w, step);
    }
  }
}
