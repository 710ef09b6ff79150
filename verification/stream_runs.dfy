/**
 * A stream beside its environment: scene writes, the notification channel, the row read that displays of
 * one scene share, the stream's own loads, the client.
 */
module StreamRuns {
  import opened Wrappers
  import opened StreamState

  /**
   * The entry of `sceneLoads` for this scene (src/campaigns/display.ts:263-272): while it is there, every load
   * of any display of the scene joins it. `at` is the place in the trace at which the row was read.
   */
  datatype SharedRead = Begun | HasRead(revision: nat, at: nat)

  /**
   * A load of this stream: its credential is still to be read, is good, the row is awaited, the row is there and its
   * background image is still to be looked up, the answer is there.
   */
  datatype Flight =
    | Asked
    | Admitted
    | Awaiting
    | Found(revision: nat, at: nat)
    | Answered(result: LoadResult, at: nat)

  /** A snapshot that a load of this stream brought, and where in the trace its row was read. */
  datatype Answer = Answer(revision: nat, at: nat)

  /** An event the stream's subscription was called with, and where in the trace. */
  datatype Call = Call(event: SceneEvent, at: nat)

  /**
   * `withdrawn` says that the scene's background image is gone. `trace`, `answers` and `calls` only record. Until
   * `begun` nobody has asked for the stream.
   */
  datatype World = World(
    request: Request, campaignId: string, committed: nat, revoked: bool, withdrawn: bool, channel: seq<SceneEvent>,
    shared: Option<SharedRead>, begun: bool, flight: Option<Flight>, stream: Stream,
    trace: seq<Step>, answers: seq<Answer>, calls: seq<Call>)

  datatype Step =
    | Commit
    | RevokeAccess
    | WithdrawImage
    | Announce(event: SceneEvent)
    | OpenStream
    | Notify
    | ReadCredential
    | JoinOrBegin
    | OtherAsks
    | ReadRow
    | Settle
    | ReadBreaks
    | LookUpImage
    | LoadFails(failure: LoadResult)
    | LoadReturns(accepts: bool)
    | DrainSink(accepts: bool)
    | AttachSink(accepts: bool)
    | Beat(accepts: bool)
    | Stall
    | ClientLeaves
    | HubLost

  ghost predicate Enabled(w: World, step: Step) {
    match step
    case Commit => true
    case RevokeAccess => true
    case WithdrawImage => true
    case Announce(event) => event.SceneChanged? ==> event.sceneId != w.request.sceneId
    case OpenStream => !w.begun
    case Notify => w.channel != []
    case ReadCredential => w.flight == Some(Asked)
    case JoinOrBegin => w.flight == Some(Admitted)
    case OtherAsks => true
    case ReadRow => w.shared == Some(Begun)
    case Settle => w.shared.Some? && w.shared.value.HasRead?
    case ReadBreaks => w.shared.Some?
    case LookUpImage => w.flight.Some? && w.flight.value.Found?
    case LoadFails(failure) => w.flight.Some? && w.flight != Some(Awaiting) && !failure.Snapshot?
    case LoadReturns(_) => w.flight.Some? && w.flight.value.Answered?
    case DrainSink(_) => w.begun && w.stream.attached
    case AttachSink(_) => w.begun && !w.stream.opening
    case Beat(_) => w.begun && w.stream.attached
    case Stall => w.begun && w.stream.stallArmed
    case ClientLeaves => w.begun && !w.stream.opening
    case HubLost => w.begun && w.stream.subscribed
  }

  /** Whoever asks while a row read is under way joins it; otherwise a read begins. */
  function Asking(shared: Option<SharedRead>): Option<SharedRead> { if shared.Some? then shared else Some(Begun) }

  ghost function Effect(w: World, step: Step): World
    requires Enabled(w, step)
  {
    match step
    case Commit =>
      var event := SceneChanged(w.request.sceneId, w.campaignId, (w.committed + 1) as real);
      w.(committed := w.committed + 1, channel := w.channel + [event])
    case RevokeAccess =>
      w.(revoked := true, channel := w.channel + [DisplayChanged(w.request.displayId, w.campaignId)])
    case WithdrawImage => w.(withdrawn := true, channel := w.channel + [CampaignChanged(w.campaignId)])
    case Announce(event) => w.(channel := w.channel + [event])
    case OpenStream => w.(begun := true, flight := Some(Asked))
    case Notify =>
      var called := w.begun && w.stream.subscribed;
      var s := if called then w.stream.OnEvent(w.request, w.channel[0]) else w.stream;
      w.(channel := w.channel[1..], stream := s,
        flight := if s.loading && !w.stream.loading then Some(Asked) else w.flight,
        calls := if called then w.calls + [Call(w.channel[0], |w.trace|)] else w.calls)
    case ReadCredential => w.(flight := Some(if w.revoked then Answered(NotFound, 0) else Admitted))
    case JoinOrBegin => w.(flight := Some(Awaiting), shared := Asking(w.shared))
    case OtherAsks => w.(shared := Asking(w.shared))
    case ReadRow => w.(shared := Some(HasRead(w.committed, |w.trace|)))
    case Settle =>
      var row := w.shared.value;
      w.(shared := None, flight := if w.flight == Some(Awaiting)
                                   then Some(Found(row.revision, row.at)) else w.flight)
    case ReadBreaks =>
      w.(shared := None, flight := if w.flight == Some(Awaiting) then Some(Answered(LoadError, 0)) else w.flight)
    case LookUpImage =>
      var row := w.flight.value;
      w.(flight := Some(Answered(if w.withdrawn then NotFound else Snapshot(w.campaignId, row.revision), row.at)))
    case LoadFails(failure) => w.(flight := Some(Answered(failure, 0)))
    case LoadReturns(accepts) =>
      var answer := w.flight.value;
      var s := w.stream.Return(answer.result, accepts);
      w.(stream := s, flight := if s.loading then Some(Asked) else None,
        answers := if answer.result.Snapshot? then w.answers + [Answer(answer.result.revision, answer.at)]
                   else w.answers)
    case DrainSink(accepts) => w.(stream := w.stream.Drain(accepts))
    case AttachSink(accepts) => w.(stream := w.stream.Attach(accepts))
    case Beat(accepts) => w.(stream := w.stream.Heartbeat(accepts))
    case Stall => w.(stream := w.stream.StallFires())
    case ClientLeaves => w.(stream := w.stream.Close())
    case HubLost => w.(stream := w.stream.OnLost())
  }

  ghost function Next(w: World, step: Step): World
    requires Enabled(w, step)
  {
    Effect(w, step).(trace := w.trace + [step])
  }

  ghost predicate IsRun(w: World, steps: seq<Step>)
    decreases |steps|
  {
    |steps| > 0 ==> Enabled(w, steps[0]) && IsRun(Next(w, steps[0]), steps[1..])
  }

  ghost function After(w: World, steps: seq<Step>): World
    requires IsRun(w, steps)
    decreases |steps|
  {
    if |steps| == 0 then w else After(Next(w, steps[0]), steps[1..])
  }

  /** Before anybody asks: a scene at some revision, notifications of earlier writes perhaps still on their way. */
  function Start(request: Request, campaignId: string, committed: nat, channel: seq<SceneEvent>): World {
    World(request, campaignId, committed, false, false, channel, None, false, None, Opening, [], [], [])
  }

  // ---------- what every step keeps ----------

  /** No scene write has been committed since place `at` of the trace. */
  ghost predicate NoCommitSince(w: World, at: nat) {
    forall j :: at <= j < |w.trace| ==> w.trace[j] != Commit
  }

  /** A row read at `at` said `revision`, which is the committed one exactly if nothing was committed since. */
  ghost predicate Dated(w: World, revision: nat, at: nat) {
    && at < |w.trace| && w.trace[at] == ReadRow && revision <= w.committed
    && (revision == w.committed <==> NoCommitSince(w, at))
  }

  ghost predicate SharedDated(w: World) {
    w.shared.Some? && w.shared.value.HasRead? ==> Dated(w, w.shared.value.revision, w.shared.value.at)
  }

  ghost predicate CarriesDate(w: World, flight: Option<Flight>) {
    flight.Some? ==>
      match flight.value
      case Found(revision, at) => Dated(w, revision, at)
      case Answered(Snapshot(_, revision), at) => Dated(w, revision, at)
      case _ => true
  }

  ghost predicate FlightDated(w: World) { CarriesDate(w, w.flight) }

  ghost predicate AnswersDated(w: World) {
    forall i {:trigger w.answers[i]} :: 0 <= i < |w.answers| ==> Dated(w, w.answers[i].revision, w.answers[i].at)
  }

  /** While open, the last revision sent is the newest that any load brought. */
  ghost predicate NewestSent(w: World) {
    && (forall i {:trigger w.answers[i]} :: 0 <= i < |w.answers| ==> w.answers[i].revision <= w.stream.lastSent)
    && (w.answers != [] ==> exists i :: 0 <= i < |w.answers| && w.answers[i].revision == w.stream.lastSent)
    && (w.answers == [] ==> w.stream.opening && w.stream.lastSent == 0)
  }

  /** The stream's own flags agree with its load. */
  ghost predicate Flying(w: World) {
    && Tidy(w.stream)
    && (if w.begun then w.flight.Some? <==> w.stream.loading else w.flight.None? && w.stream == Opening)
    && (w.stream.opening ==> w.stream.loading)
    && (w.flight == Some(Awaiting) ==> w.shared.Some?)
  }

  ghost predicate Sound(w: World) {
    && Flying(w) && SharedDated(w) && FlightDated(w) && AnswersDated(w)
    && (!w.stream.closed ==> NewestSent(w))
  }

  lemma FlushProgress(s: Stream, revision: nat, accepts: bool)
    ensures var t := s.Flush(revision, accepts);
      t.lastSent == s.lastSent && t.loading == s.loading && t.opening == s.opening && t.dirty == s.dirty &&
        t.closed == s.closed && t.campaignId == s.campaignId
  {
  }

  lemma DeliverProgress(s: Stream, revision: nat, accepts: bool)
    ensures var t := s.Deliver(revision, accepts);
      t.lastSent == (if revision <= s.lastSent then s.lastSent else revision) && t.campaignId == s.campaignId &&
      t.loading == s.loading && t.opening == s.opening && t.dirty == s.dirty && t.closed == s.closed
  {
    FlushProgress(s.(lastSent := revision), revision, accepts);
  }

  lemma RevokeProgress(s: Stream, accepts: bool)
    ensures var t := s.Revoke(accepts);
      t.lastSent == s.lastSent && t.opening == s.opening && t.closed && t.campaignId == s.campaignId
  {
  }

  /** What a return does to the flags: a snapshot moves `lastSent` up to what was read, anything else closes. */
  lemma ReturnProgress(s: Stream, result: LoadResult, accepts: bool)
    requires s.loading
    ensures var t := s.Return(result, accepts);
      && (t.opening ==> s.opening && t.loading)
      && (!t.closed ==> !s.closed && result.Snapshot? &&
                        t.lastSent == (if result.revision <= s.lastSent then s.lastSent else result.revision))
      && (t.loading ==> !t.closed && s.dirty && !t.dirty)
      && (result.Snapshot? && s.dirty && !s.closed ==> t.loading)
  {
    RevokeProgress(s, accepts);
    if result.Snapshot? {
      DeliverProgress(s, result.revision, accepts);
      DeliverProgress(s.(campaignId := Some(result.campaignId)), result.revision, accepts);
    }
  }

  /** A date stays right: the step that makes it old is the step that makes the revision old. */
  lemma DatesAge(w: World, step: Step, revision: nat, at: nat)
    requires Enabled(w, step) && Dated(w, revision, at)
    ensures Dated(Next(w, step), revision, at)
  {
    var v := Next(w, step);
    if step == Commit {
      assert v.trace[|w.trace|] == Commit;
    } else {
      assert NoCommitSince(w, at) ==> NoCommitSince(v, at);
      assert NoCommitSince(v, at) ==> NoCommitSince(w, at) by {
        if NoCommitSince(v, at) {
          forall j | at <= j < |w.trace| ensures w.trace[j] != Commit {
            assert v.trace[j] == w.trace[j];
          }
        }
      }
    }
  }

  lemma SharedAges(w: World, step: Step)
    requires SharedDated(w) && Enabled(w, step)
    ensures SharedDated(Next(w, step))
  {
    if w.shared.Some? && w.shared.value.HasRead? {
      DatesAge(w, step, w.shared.value.revision, w.shared.value.at);
    }
  }

  lemma CarriedDatesAge(w: World, step: Step, flight: Option<Flight>)
    requires CarriesDate(w, flight) && Enabled(w, step)
    ensures CarriesDate(Next(w, step), flight)
  {
    if flight.Some? {
      match flight.value
      case Found(revision, at) => DatesAge(w, step, revision, at);
      case Answered(Snapshot(_, revision), at) => DatesAge(w, step, revision, at);
      case _ =>
    }
  }

  lemma FlightAges(w: World, step: Step)
    requires SharedDated(w) && FlightDated(w) && Enabled(w, step)
    ensures FlightDated(Next(w, step))
  {
    CarriedDatesAge(w, step, w.flight);
    if step.Settle? {
      DatesAge(w, step, w.shared.value.revision, w.shared.value.at);
    } else if step.LookUpImage? {
      DatesAge(w, step, w.flight.value.revision, w.flight.value.at);
    }
  }

  lemma AnswersAge(w: World, step: Step)
    requires FlightDated(w) && AnswersDated(w) && Enabled(w, step)
    ensures AnswersDated(Next(w, step))
  {
    var v := Next(w, step);
    if w.flight.Some? && w.flight.value.Answered? && w.flight.value.result.Snapshot? {
      DatesAge(w, step, w.flight.value.result.revision, w.flight.value.at);
    }
    forall i | 0 <= i < |v.answers| ensures Dated(v, v.answers[i].revision, v.answers[i].at) {
      if i < |w.answers| {
        DatesAge(w, step, w.answers[i].revision, w.answers[i].at);
      }
    }
  }

  lemma ClosingSound(s: Stream)
    requires Tidy(s)
    ensures Tidy(s.Close()) && Tidy(s.OnLost()) && Tidy(s.StallFires())
  {
    CloseTidy(s);
    if !s.closed {
      assert s.(subscribed := false).Close() == s.Close();
    }
  }

  lemma SinkSound(s: Stream, accepts: bool)
    requires Tidy(s)
    ensures s.attached ==> Tidy(s.Drain(accepts))
    ensures !s.opening ==> Tidy(s.Attach(accepts))
    ensures Tidy(s.Heartbeat(accepts))
  {
    if s.attached {
      DrainTidy(s, accepts);
      if !s.closed && !s.backpressured {
        WriteTidy(s, HeartbeatChunk, accepts);
      }
    }
    if !s.opening {
      AttachTidy(s, accepts);
    }
  }

  predicate TouchesSink(step: Step) {
    step.DrainSink? || step.AttachSink? || step.Beat? || step.Stall? || step.ClientLeaves? || step.HubLost?
  }

  lemma SinkStepFlies(w: World, step: Step)
    requires Flying(w) && Enabled(w, step) && TouchesSink(step)
    ensures Flying(Next(w, step))
  {
    match step
    case DrainSink(accepts) => SinkSound(w.stream, accepts);
    case AttachSink(accepts) => SinkSound(w.stream, accepts);
    case Beat(accepts) => SinkSound(w.stream, accepts);
    case _ => ClosingSound(w.stream);
  }

  /** A step of the environment or of the load under way, during which none of the stream's callbacks runs. */
  predicate Elsewhere(step: Step) { !step.LoadReturns? && !step.Notify? && !TouchesSink(step) }

  /** Same progress: the sink's side of the stream leaves the loading side alone. */
  ghost predicate SameProgress(s: Stream, t: Stream) {
    && t.lastSent == s.lastSent && t.opening == s.opening && t.loading == s.loading && t.dirty == s.dirty
    && t.campaignId == s.campaignId && (s.closed ==> t.closed)
  }

  lemma DrainKeepsProgress(s: Stream, accepts: bool)
    ensures SameProgress(s, s.Drain(accepts))
  {
    if s.pending.Some? {
      var drained := s.(log := s.log + [Drained], backpressured := false, stallArmed := false, pending := None);
      FlushProgress(drained, s.pending.value, accepts);
    }
  }

  lemma AttachKeepsProgress(s: Stream, accepts: bool)
    ensures SameProgress(s, s.Attach(accepts))
  {
    if s.pending.Some? {
      FlushProgress(s.(attached := true, pending := None), s.pending.value, accepts);
    }
  }

  lemma ClosingKeepsProgress(s: Stream, accepts: bool)
    ensures SameProgress(s, s.Heartbeat(accepts)) && SameProgress(s, s.Close())
    ensures SameProgress(s, s.OnLost()) && SameProgress(s, s.StallFires())
  {
  }

  lemma SinkStepKeepsProgress(w: World, step: Step)
    requires Enabled(w, step) && TouchesSink(step)
    ensures SameProgress(w.stream, Next(w, step).stream)
  {
    match step
    case DrainSink(accepts) => DrainKeepsProgress(w.stream, accepts);
    case AttachSink(accepts) => AttachKeepsProgress(w.stream, accepts);
    case Beat(accepts) => ClosingKeepsProgress(w.stream, accepts);
    case _ => ClosingKeepsProgress(w.stream, true);
  }

  lemma ReturnFlies(w: World, step: Step)
    requires Sound(w) && Enabled(w, step) && step.LoadReturns?
    ensures Flying(Next(w, step))
  {
    ReturnTidy(w.stream, w.flight.value.result, step.accepts);
    ReturnProgress(w.stream, w.flight.value.result, step.accepts);
  }

  lemma ReturnSendsNewest(w: World, step: Step)
    requires Sound(w) && Enabled(w, step) && step.LoadReturns?
    ensures !Next(w, step).stream.closed ==> NewestSent(Next(w, step))
  {
    var v := Next(w, step);
    ReturnProgress(w.stream, w.flight.value.result, step.accepts);
    if !v.stream.closed {
      var last := |w.answers|;
      assert v.answers[last].revision == w.flight.value.result.revision;
      if v.stream.lastSent != v.answers[last].revision {
        var i :| 0 <= i < |w.answers| && w.answers[i].revision == w.stream.lastSent;
        assert v.answers[i].revision == v.stream.lastSent;
      }
    }
  }

  lemma NotifyFlies(w: World, step: Step)
    requires Flying(w) && Enabled(w, step) && step.Notify?
    ensures Flying(Next(w, step)) && Next(w, step).stream.lastSent == w.stream.lastSent
    ensures Next(w, step).stream.opening == w.stream.opening && Next(w, step).stream.closed == w.stream.closed
  {
  }

  lemma StepSound(w: World, step: Step)
    requires Sound(w) && Enabled(w, step)
    ensures Sound(Next(w, step))
  {
    SharedAges(w, step);
    FlightAges(w, step);
    AnswersAge(w, step);
    if step.LoadReturns? {
      ReturnFlies(w, step);
      ReturnSendsNewest(w, step);
    } else if step.Notify? {
      NotifyFlies(w, step);
    } else if TouchesSink(step) {
      SinkStepFlies(w, step);
      SinkStepKeepsProgress(w, step);
    }
  }

  lemma {:induction false} RunSound(w: World, steps: seq<Step>)
    requires Sound(w) && IsRun(w, steps)
    ensures Sound(After(w, steps))
    decreases |steps|
  {
    if |steps| > 0 {
      StepSound(w, steps[0]);
      RunSound(Next(w, steps[0]), steps[1..]);
    }
  }

  // ---------- no scene update is lost, provided no stale read is joined ----------

  /** A notification on its way reports revision r of this scene, or a later one. */
  ghost predicate Announced(w: World, channel: seq<SceneEvent>, r: nat) {
    exists i :: 0 <= i < |channel| && Reports(w.request.sceneId, channel[i], r)
  }

  predicate Reports(sceneId: string, event: SceneEvent, r: nat) {
    event.SceneChanged? && event.sceneId == sceneId && event.revision >= r as real
  }

  /** The load in flight has yet to read the row, or has read that far, or closes the stream. */
  ghost predicate WillBring(w: World, r: nat) {
    w.flight.Some? &&
    match w.flight.value
    case Asked => true
    case Admitted => true
    case Awaiting => w.shared.Some? && (w.shared.value.HasRead? ==> w.shared.value.revision >= r)
    case Found(revision, _) => revision >= r
    case Answered(result, _) => result.Snapshot? ==> result.revision >= r
  }

  /** Revision r has reached `lastSent`, or something still to happen will bring it. */
  ghost predicate Covered(w: World, r: nat) {
    || !w.begun
    || w.stream.closed
    || r <= w.stream.lastSent
    || Announced(w, w.channel, r)
    || (w.stream.loading && w.stream.dirty)
    || WillBring(w, r)
  }

  /**
   * An announcement stays announced when the channel grows, and survives the loss of the head unless it is the head.
   */
  lemma AnnouncedStays(w: World, channel: seq<SceneEvent>, event: SceneEvent, r: nat)
    ensures Announced(w, channel, r) ==> Announced(w, channel + [event], r)
    ensures Reports(w.request.sceneId, event, r) ==> Announced(w, channel + [event], r)
    ensures |channel| > 0 && Announced(w, channel, r) && !Reports(w.request.sceneId, channel[0], r) ==>
              Announced(w, channel[1..], r)
  {
    var longer := channel + [event];
    assert longer[|channel|] == event;
    if i :| 0 <= i < |channel| && Reports(w.request.sceneId, channel[i], r) {
      assert longer[i] == channel[i];
      if i > 0 {
        assert channel[1..][i - 1] == channel[i];
      }
    }
  }

  /** The one case that can lose an update: joining a row read that is older than the last commit. */
  ghost predicate Prompt(w: World, step: Step) {
    step == JoinOrBegin && w.shared.Some? && w.shared.value.HasRead? ==> NoCommitSince(w, w.shared.value.at)
  }

  ghost predicate AllPrompt(w: World, steps: seq<Step>)
    requires IsRun(w, steps)
    decreases |steps|
  {
    |steps| > 0 ==> Prompt(w, steps[0]) && AllPrompt(Next(w, steps[0]), steps[1..])
  }

  lemma NotifyCovers(w: World, step: Step)
    requires Sound(w) && Enabled(w, step) && step.Notify? && Covered(w, w.committed)
    ensures Covered(Next(w, step), w.committed)
  {
    AnnouncedStays(w, w.channel, w.channel[0], w.committed);
    var v := Next(w, step);
    assert Announced(w, v.channel, w.committed) ==> Announced(v, v.channel, w.committed);
  }

  lemma GrowingCovers(w: World, step: Step)
    requires Enabled(w, step) && Covered(w, w.committed)
    requires step.Commit? || step.RevokeAccess? || step.WithdrawImage? || step.Announce?
    ensures Covered(Next(w, step), Next(w, step).committed)
  {
    var v := Next(w, step);
    AnnouncedStays(w, w.channel, v.channel[|w.channel|], v.committed);
    assert Announced(w, v.channel, v.committed) ==> Announced(v, v.channel, v.committed);
  }

  lemma ReturnCovers(w: World, step: Step)
    requires Sound(w) && Enabled(w, step) && step.LoadReturns? && Covered(w, w.committed)
    ensures Covered(Next(w, step), w.committed)
  {
    var v := Next(w, step);
    ReturnProgress(w.stream, w.flight.value.result, step.accepts);
    assert Announced(w, w.channel, w.committed) ==> Announced(v, v.channel, w.committed);
  }

  lemma SinkCovers(w: World, step: Step)
    requires Enabled(w, step) && TouchesSink(step) && Covered(w, w.committed)
    ensures Covered(Next(w, step), w.committed)
  {
    var v := Next(w, step);
    SinkStepKeepsProgress(w, step);
    assert Announced(w, w.channel, w.committed) ==> Announced(v, v.channel, w.committed);
  }

  lemma LoadCovers(w: World, step: Step)
    requires Sound(w) && Enabled(w, step) && Prompt(w, step) && Covered(w, w.committed)
    requires step.OpenStream? || step.ReadCredential? || step.JoinOrBegin? || step.OtherAsks? || step.ReadRow?
          || step.Settle? || step.ReadBreaks? || step.LookUpImage? || step.LoadFails?
    ensures Covered(Next(w, step), w.committed)
  {
    var v := Next(w, step);
    assert Announced(w, w.channel, w.committed) ==> Announced(v, v.channel, w.committed);
  }

  lemma StepCovers(w: World, step: Step)
    requires Sound(w) && Enabled(w, step) && Prompt(w, step) && Covered(w, w.committed)
    ensures Covered(Next(w, step), Next(w, step).committed)
  {
    if step.Notify? {
      NotifyCovers(w, step);
    } else if step.Commit? || step.RevokeAccess? || step.WithdrawImage? || step.Announce? {
      GrowingCovers(w, step);
    } else if step.LoadReturns? {
      ReturnCovers(w, step);
    } else if TouchesSink(step) {
      SinkCovers(w, step);
    } else {
      LoadCovers(w, step);
    }
  }

  lemma CoveredBelow(w: World, r: nat)
    requires Covered(w, w.committed) && r <= w.committed
    ensures Covered(w, r)
  {
    if i :| 0 <= i < |w.channel| && Reports(w.request.sceneId, w.channel[i], w.committed) {
      assert Reports(w.request.sceneId, w.channel[i], r);
    }
  }

  lemma {:induction false} RunCovers(w: World, steps: seq<Step>)
    requires Sound(w) && Covered(w, w.committed) && IsRun(w, steps) && AllPrompt(w, steps)
    ensures Covered(After(w, steps), After(w, steps).committed)
    decreases |steps|
  {
    if |steps| > 0 {
      StepSound(w, steps[0]);
      StepCovers(w, steps[0]);
      RunCovers(Next(w, steps[0]), steps[1..]);
    }
  }

  /**
   * If no commit falls between a joined read and the join, every committed revision is accounted for at every point.
   */
  lemma NoUpdateIsLost(request: Request, campaignId: string, committed: nat, channel: seq<SceneEvent>, steps: seq<Step>)
    requires IsRun(Start(request, campaignId, committed, channel), steps)
    requires AllPrompt(Start(request, campaignId, committed, channel), steps)
    ensures var w := After(Start(request, campaignId, committed, channel), steps);
      forall r: nat :: r <= w.committed ==> Covered(w, r)
  {
    var start := Start(request, campaignId, committed, channel);
    RunCovers(start, steps);
    forall r: nat | r <= After(start, steps).committed ensures Covered(After(start, steps), r) {
      CoveredBelow(After(start, steps), r);
    }
  }

  ghost predicate Idle(w: World) { w.begun && w.channel == [] && w.flight.None? }

  /** An open stream with nothing outstanding has the committed revision, and an unblocked client was sent it last. */
  lemma IdleIsCaughtUp(request: Request, campaignId: string, committed: nat, channel: seq<SceneEvent>, steps: seq<Step>)
    requires IsRun(Start(request, campaignId, committed, channel), steps)
    requires AllPrompt(Start(request, campaignId, committed, channel), steps)
    ensures var w := After(Start(request, campaignId, committed, channel), steps);
      Idle(w) && !w.stream.closed ==>
        w.stream.lastSent == w.committed &&
        (w.stream.attached && !w.stream.backpressured && w.committed > 0 ==>
          EndsWith(Scenes(w.stream.log), w.committed)) &&
        (!w.stream.attached && w.committed > 0 ==> w.stream.pending == Some(w.committed))
  {
    RunCovers(Start(request, campaignId, committed, channel), steps);
    RunSound(Start(request, campaignId, committed, channel), steps);
    var w := After(Start(request, campaignId, committed, channel), steps);
    if Idle(w) && !w.stream.closed {
      var i :| 0 <= i < |w.answers| && w.answers[i].revision == w.stream.lastSent;
      assert Dated(w, w.answers[i].revision, w.answers[i].at);
    }
  }

  // ---------- with stale reads: exactly when ----------

  /**
   * The comment at src/campaigns/display.ts:257-262 holds that a later read always sees the latest committed
   * revision although reads under way are shared. Over every run, whatever is joined: a stream at rest has the
   * committed revision exactly if one of its loads was answered by a row read after which nothing was committed.
   */
  lemma CaughtUpIffReadAfterTheLastCommit(
      request: Request, campaignId: string, committed: nat, channel: seq<SceneEvent>, steps: seq<Step>)
    requires IsRun(Start(request, campaignId, committed, channel), steps)
    requires Idle(After(Start(request, campaignId, committed, channel), steps))
    requires !After(Start(request, campaignId, committed, channel), steps).stream.closed
    ensures var w := After(Start(request, campaignId, committed, channel), steps);
      w.stream.lastSent == w.committed <==> exists i :: 0 <= i < |w.answers| && NoCommitSince(w, w.answers[i].at)
  {
    RunSound(Start(request, campaignId, committed, channel), steps);
    var w := After(Start(request, campaignId, committed, channel), steps);
    if w.stream.lastSent == w.committed {
      var i :| 0 <= i < |w.answers| && w.answers[i].revision == w.stream.lastSent;
      assert Dated(w, w.answers[i].revision, w.answers[i].at);
    }
    if i :| 0 <= i < |w.answers| && NoCommitSince(w, w.answers[i].at) {
      assert Dated(w, w.answers[i].revision, w.answers[i].at);
    }
  }

  /** The worlds a run passes through. */
  ghost predicate Passes(worlds: seq<World>, steps: seq<Step>) {
    |worlds| == |steps| + 1 &&
    forall k {:trigger steps[k]} ::
      0 <= k < |steps| ==> Enabled(worlds[k], steps[k]) && Next(worlds[k], steps[k]) == worlds[k + 1]
  }

  lemma {:induction false} PassingIsARun(worlds: seq<World>, steps: seq<Step>)
    requires Passes(worlds, steps)
    ensures IsRun(worlds[0], steps) && After(worlds[0], steps) == worlds[|steps|]
    decreases |steps|
  {
    if |steps| > 0 {
      assert Enabled(worlds[0], steps[0]) && Next(worlds[0], steps[0]) == worlds[1];
      forall k | 0 <= k < |steps[1..]|
        ensures Enabled(worlds[1..][k], steps[1..][k]) && Next(worlds[1..][k], steps[1..][k]) == worlds[1..][k + 1]
      {
        assert steps[1..][k] == steps[k + 1];
      }
      PassingIsARun(worlds[1..], steps[1..]);
    }
  }

  lemma {:induction false} RunsJoin(w: World, first: seq<Step>, second: seq<Step>)
    requires IsRun(w, first) && IsRun(After(w, first), second)
    ensures IsRun(w, first + second) && After(w, first + second) == After(After(w, first), second)
    decreases |first|
  {
    if |first| == 0 {
      assert first + second == second;
    } else {
      assert (first + second)[1..] == first[1..] + second;
      RunsJoin(Next(w, first[0]), first[1..], second);
    }
  }

  /** At rest, open and unblocked, one revision behind. */
  ghost predicate LeftBehind(w: World) {
    && Idle(w) && !w.stream.closed && w.stream.attached && !w.stream.backpressured
    && w.committed == 2 && w.stream.lastSent == 1 && Scenes(w.stream.log) == [1]
  }

  /** A display has just asked for its stream; another one's read, from before the last write, is still unsettled. */
  ghost predicate AskedLate(w: World, campaignId: string) {
    && w.campaignId == campaignId && w.begun && w.committed == 2 && !w.revoked && !w.withdrawn && w.channel == []
    && w.flight == Some(Asked) && w.stream == Opening && w.shared.Some? && w.shared.value.HasRead? &&
      w.shared.value.revision == 1
  }

  /** Before anybody asked for the stream: another display's read, from before the write, which was announced. */
  ghost predicate Missed(w: World, campaignId: string) {
    && w.campaignId == campaignId && !w.begun && w.committed == 2 && !w.revoked && !w.withdrawn && w.channel == []
    && w.flight.None? && w.stream == Opening && w.shared.Some? && w.shared.value.HasRead? &&
      w.shared.value.revision == 1
  }

  lemma MissesTheWrite(request: Request, campaignId: string) returns (steps: seq<Step>)
    ensures IsRun(Start(request, campaignId, 1, []), steps) &&
      Missed(After(Start(request, campaignId, 1, []), steps), campaignId)
  {
    var w0 := Start(request, campaignId, 1, []);
    var w1 := Next(w0, OtherAsks);
    var w2 := Next(w1, ReadRow);
    var w3 := Next(w2, Commit);
    var w4 := Next(w3, Notify);
    steps := [OtherAsks, ReadRow, Commit, Notify];
    PassingIsARun([w0, w1, w2, w3, w4], steps);
  }

  lemma AsksLate(request: Request, campaignId: string) returns (steps: seq<Step>)
    ensures IsRun(Start(request, campaignId, 1, []), steps) &&
      AskedLate(After(Start(request, campaignId, 1, []), steps), campaignId)
  {
    var w0 := Start(request, campaignId, 1, []);
    var first := MissesTheWrite(request, campaignId);
    var w1 := After(w0, first);
    PassingIsARun([w1, Next(w1, OpenStream)], [OpenStream]);
    RunsJoin(w0, first, [OpenStream]);
    steps := first + [OpenStream];
  }

  /** Opened on revision 1, nothing sent yet. */
  function Opened(campaignId: string): Stream {
    Opening.(opening := false, loading := false, campaignId := Some(campaignId), lastSent := 1, pending := Some(1))
  }

  /** Attached as well, and sent revision 1. */
  function Showing(campaignId: string): Stream {
    Opened(campaignId).(attached := true, pending := None, log := [Wrote(SceneChunk(1), true)])
  }

  lemma OpensOnRevisionOne(campaignId: string)
    ensures Opening.Return(Snapshot(campaignId, 1), true) == Opened(campaignId)
  {
    var named := Opening.(campaignId := Some(campaignId), lastSent := 1);
    assert named.Flush(1, true) == named.(pending := Some(1));
  }

  lemma AttachesWithRevisionOne(campaignId: string)
    ensures Opened(campaignId).Attach(true) == Showing(campaignId)
  {
    var s := Opened(campaignId).(attached := true, pending := None);
    assert s.Flush(1, true) == s.Write(SceneChunk(1), true);
  }

  lemma ShowsOneScene(campaignId: string)
    ensures Scenes(Showing(campaignId).log) == [1]
  {
    assert Showing(campaignId).log[..0] == [];
  }

  /** The old row was good enough for the opening load, and nothing else is outstanding. */
  ghost predicate LoadedLate(w: World, campaignId: string) {
    && w.begun && w.committed == 2 && w.channel == [] && w.stream == Opening
    && w.flight.Some? && w.flight.value.Answered? && w.flight.value.result == Snapshot(campaignId, 1)
  }

  lemma JoinsLate(w: World, campaignId: string) returns (steps: seq<Step>)
    requires AskedLate(w, campaignId)
    ensures IsRun(w, steps) && LoadedLate(After(w, steps), campaignId)
  {
    var w1 := Next(w, ReadCredential);
    var w2 := Next(w1, JoinOrBegin);
    var w3 := Next(w2, Settle);
    var w4 := Next(w3, LookUpImage);
    steps := [ReadCredential, JoinOrBegin, Settle, LookUpImage];
    PassingIsARun([w, w1, w2, w3, w4], steps);
  }

  lemma ShowsTheOldScene(w: World, campaignId: string) returns (steps: seq<Step>)
    requires LoadedLate(w, campaignId)
    ensures IsRun(w, steps) && LeftBehind(After(w, steps))
  {
    OpensOnRevisionOne(campaignId);
    AttachesWithRevisionOne(campaignId);
    ShowsOneScene(campaignId);
    var w1 := Next(w, LoadReturns(true));
    assert w1.stream == Opened(campaignId);
    var w2 := Next(w1, AttachSink(true));
    assert w2.stream == Showing(campaignId);
    steps := [LoadReturns(true), AttachSink(true)];
    PassingIsARun([w, w1, w2], steps);
  }

  /**
   * First failing case: a display opens on another display's read, and the write since was announced too early for it.
   */
  lemma OpeningOnAnOldReadLosesAnUpdate(request: Request, campaignId: string)
    ensures exists steps ::
      IsRun(Start(request, campaignId, 1, []), steps) && LeftBehind(After(Start(request, campaignId, 1, []), steps))
  {
    var start := Start(request, campaignId, 1, []);
    var first := AsksLate(request, campaignId);
    var second := JoinsLate(After(start, first), campaignId);
    RunsJoin(start, first, second);
    var third := ShowsTheOldScene(After(start, first + second), campaignId);
    RunsJoin(start, first + second, third);
  }

  /** A stream that opened on revision 1 and sent it, with another display's read of that revision still unsettled. */
  ghost predicate Watching(w: World, request: Request, campaignId: string) {
    && w.request == request && w.campaignId == campaignId && w.begun && w.committed == 1 && !w.revoked && !w.withdrawn
    && w.channel == [] && w.flight.None? && w.shared.Some? && w.shared.value.HasRead? && w.shared.value.revision == 1
    && w.stream == Showing(campaignId)
  }

  ghost predicate Loaded(w: World, request: Request, campaignId: string) {
    && w.request == request && w.campaignId == campaignId && w.begun && w.committed == 1 && !w.revoked && !w.withdrawn
    && w.channel == [] && w.shared.None? && w.stream == Opening
    && w.flight.Some? && w.flight.value.Answered? && w.flight.value.result == Snapshot(campaignId, 1)
  }

  /** The opening load began a row read of its own. */
  ghost predicate BeganReading(w: World, request: Request, campaignId: string) {
    && w.request == request && w.campaignId == campaignId && w.begun && w.committed == 1 && !w.revoked && !w.withdrawn
    && w.channel == [] && w.shared == Some(Begun) && w.stream == Opening && w.flight == Some(Awaiting)
  }

  lemma BeginsReading(request: Request, campaignId: string) returns (steps: seq<Step>)
    ensures IsRun(Start(request, campaignId, 1, []), steps)
    ensures BeganReading(After(Start(request, campaignId, 1, []), steps), request, campaignId)
  {
    var w0 := Start(request, campaignId, 1, []);
    var w1 := Next(w0, OpenStream);
    var w2 := Next(w1, ReadCredential);
    var w3 := Next(w2, JoinOrBegin);
    steps := [OpenStream, ReadCredential, JoinOrBegin];
    PassingIsARun([w0, w1, w2, w3], steps);
  }

  lemma LoadsFirst(w: World, request: Request, campaignId: string) returns (steps: seq<Step>)
    requires BeganReading(w, request, campaignId)
    ensures IsRun(w, steps) && Loaded(After(w, steps), request, campaignId)
  {
    var w1 := Next(w, ReadRow);
    var w2 := Next(w1, Settle);
    var w3 := Next(w2, LookUpImage);
    steps := [ReadRow, Settle, LookUpImage];
    PassingIsARun([w, w1, w2, w3], steps);
  }

  lemma StartsWatching(w: World, request: Request, campaignId: string) returns (steps: seq<Step>)
    requires Loaded(w, request, campaignId)
    ensures IsRun(w, steps) && Watching(After(w, steps), request, campaignId)
  {
    OpensOnRevisionOne(campaignId);
    AttachesWithRevisionOne(campaignId);
    var w1 := Next(w, LoadReturns(true));
    assert w1.stream == Opened(campaignId);
    var w2 := Next(w1, AttachSink(true));
    var w3 := Next(w2, OtherAsks);
    var w4 := Next(w3, ReadRow);
    steps := [LoadReturns(true), AttachSink(true), OtherAsks, ReadRow];
    PassingIsARun([w, w1, w2, w3, w4], steps);
  }

  /** The write is committed and heard of; the reload's credential is good. */
  ghost predicate Reloading(w: World, campaignId: string) {
    && w.campaignId == campaignId && w.begun && !w.withdrawn && w.committed == 2 && w.channel == []
    && w.flight == Some(Admitted)
    && w.stream == Showing(campaignId).(loading := true)
    && w.shared.Some? && w.shared.value.HasRead? && w.shared.value.revision == 1
  }

  lemma HearsOfTheWrite(w: World, request: Request, campaignId: string) returns (steps: seq<Step>)
    requires Watching(w, request, campaignId)
    ensures IsRun(w, steps) && Reloading(After(w, steps), campaignId)
  {
    var w1 := Next(w, Commit);
    var w2 := Next(w1, Notify);
    assert w2.flight == Some(Asked) && w2.channel == [];
    var w3 := Next(w2, ReadCredential);
    steps := [Commit, Notify, ReadCredential];
    PassingIsARun([w, w1, w2, w3], steps);
  }

  lemma RejoinsTheOldRead(w: World, campaignId: string) returns (steps: seq<Step>)
    requires Reloading(w, campaignId)
    ensures IsRun(w, steps) && LeftBehind(After(w, steps))
  {
    var w1 := Next(w, JoinOrBegin);
    var w2 := Next(w1, Settle);
    var w3 := Next(w2, LookUpImage);
    var w4 := Next(w3, LoadReturns(true));
    assert w4.stream == Showing(campaignId) && w4.flight.None?;
    ShowsOneScene(campaignId);
    steps := [JoinOrBegin, Settle, LookUpImage, LoadReturns(true)];
    PassingIsARun([w, w1, w2, w3, w4], steps);
  }

  /** Second failing case: a stream at rest hears of the write, and its reload joins a read from before it. */
  lemma ReloadOnAnOldReadLosesAnUpdate(request: Request, campaignId: string)
    ensures exists steps ::
      IsRun(Start(request, campaignId, 1, []), steps) && LeftBehind(After(Start(request, campaignId, 1, []), steps))
  {
    var start := Start(request, campaignId, 1, []);
    var begins := BeginsReading(request, campaignId);
    var loads := LoadsFirst(After(start, begins), request, campaignId);
    RunsJoin(start, begins, loads);
    var first := begins + loads;
    var second := StartsWatching(After(start, first), request, campaignId);
    RunsJoin(start, first, second);
    var third := HearsOfTheWrite(After(start, first + second), request, campaignId);
    RunsJoin(start, first + second, third);
    var fourth := RejoinsTheOldRead(After(start, first + second + third), campaignId);
    RunsJoin(start, first + second + third, fourth);
  }

  // ---------- what holds whatever is joined ----------

  /** Output discipline in every run. */
  lemma ClientSeesDisciplinedOutput(
      request: Request, campaignId: string, committed: nat, channel: seq<SceneEvent>, steps: seq<Step>)
    requires IsRun(Start(request, campaignId, committed, channel), steps)
    ensures var s := After(Start(request, campaignId, committed, channel), steps).stream;
      Disciplined(s.log) && Increasing(Scenes(s.log)) && AllAtMost(Scenes(s.log), s.lastSent) &&
      (s.stallArmed <==> s.backpressured && !s.closed) &&
      (!s.closed ==> Latest(s))
  {
    RunSound(Start(request, campaignId, committed, channel), steps);
  }

  /**
   * A revoked display is closed, or the notice is on its way, or noticed during a load, or the load in flight has
   * its credential still to read or closes the stream. A load already past that check changes nothing about this.
   */
  ghost predicate RevocationPending(w: World) {
    || !w.begun
    || w.stream.closed
    || DisplayChanged(w.request.displayId, w.campaignId) in w.channel
    || (w.stream.loading && w.stream.dirty)
    || w.flight == Some(Asked)
    || (w.flight.Some? && w.flight.value.Answered? && !w.flight.value.result.Snapshot?)
  }

  lemma NotifyKeepsRevocation(w: World, step: Step)
    requires Sound(w) && Enabled(w, step) && step.Notify? && RevocationPending(w)
    ensures RevocationPending(Next(w, step))
  {
    assert w.channel == [w.channel[0]] + w.channel[1..];
  }

  lemma ReturnKeepsRevocation(w: World, step: Step)
    requires Sound(w) && Enabled(w, step) && step.LoadReturns? && RevocationPending(w)
    ensures RevocationPending(Next(w, step))
  {
    ReturnProgress(w.stream, w.flight.value.result, step.accepts);
  }

  lemma LoadKeepsRevocation(w: World, step: Step)
    requires Sound(w) && Enabled(w, step) && Elsewhere(step) && (w.revoked ==> RevocationPending(w))
    ensures Next(w, step).revoked ==> RevocationPending(Next(w, step))
  {
  }

  lemma StepKeepsRevocation(w: World, step: Step)
    requires Sound(w) && Enabled(w, step) && (w.revoked ==> RevocationPending(w))
    ensures Next(w, step).revoked ==> RevocationPending(Next(w, step))
  {
    if Elsewhere(step) {
      LoadKeepsRevocation(w, step);
    } else if !w.revoked {
    } else if step.Notify? {
      NotifyKeepsRevocation(w, step);
    } else if step.LoadReturns? {
      ReturnKeepsRevocation(w, step);
    } else {
      SinkStepKeepsProgress(w, step);
    }
  }

  lemma {:induction false} RunKeepsRevocation(w: World, steps: seq<Step>)
    requires Sound(w) && (w.revoked ==> RevocationPending(w)) && IsRun(w, steps)
    ensures After(w, steps).revoked ==> RevocationPending(After(w, steps))
    decreases |steps|
  {
    if |steps| > 0 {
      StepSound(w, steps[0]);
      StepKeepsRevocation(w, steps[0]);
      RunKeepsRevocation(Next(w, steps[0]), steps[1..]);
    }
  }

  /** However reads are shared, a revoked display's stream is closed or about to be, and at rest it is closed. */
  lemma NoRevocationIsMissed(request: Request, campaignId: string, committed: nat, channel: seq<SceneEvent>,
      steps: seq<Step>)
    requires IsRun(Start(request, campaignId, committed, channel), steps)
    ensures var w := After(Start(request, campaignId, committed, channel), steps);
      (w.revoked ==> RevocationPending(w)) && (w.revoked && Idle(w) ==> w.stream.closed)
  {
    RunKeepsRevocation(Start(request, campaignId, committed, channel), steps);
    RunSound(Start(request, campaignId, committed, channel), steps);
  }

  // ---------- a deleted image stops being shown ----------

  /**
   * A stream whose scene has lost its image is closed, or the notice is on its way, or noticed during a load, or the
   * load in flight still looks the image up or closes the stream.
   */
  ghost predicate WithdrawalPending(w: World) {
    || !w.begun
    || w.stream.closed
    || CampaignChanged(w.campaignId) in w.channel
    || (w.stream.loading && w.stream.dirty)
    || (w.flight.Some? && !(w.flight.value.Answered? && w.flight.value.result.Snapshot?))
  }

  /** What a stream knows of its campaign is right. */
  ghost predicate KnowsItsCampaign(w: World) {
    && (w.stream.campaignId.Some? ==> w.stream.campaignId.value == w.campaignId)
    && (!w.stream.opening && !w.stream.closed ==> w.stream.campaignId.Some?)
    && (w.flight.Some? && w.flight.value.Answered? && w.flight.value.result.Snapshot? ==>
         w.flight.value.result.campaignId == w.campaignId)
  }

  lemma ReturnLearns(s: Stream, result: LoadResult, accepts: bool)
    requires s.loading
    ensures var t := s.Return(result, accepts);
      && (s.opening && result.Snapshot? ==> t.campaignId == Some(result.campaignId))
      && (!(s.opening && result.Snapshot?) ==> t.campaignId == s.campaignId)
  {
    if result.Snapshot? {
      DeliverProgress(s, result.revision, accepts);
      DeliverProgress(s.(campaignId := Some(result.campaignId)), result.revision, accepts);
    } else {
      RevokeProgress(s, accepts);
    }
  }

  lemma ReturnKnowsItsCampaign(w: World, step: Step)
    requires Sound(w) && KnowsItsCampaign(w) && Enabled(w, step) && step.LoadReturns?
    ensures KnowsItsCampaign(Next(w, step))
  {
    ReturnLearns(w.stream, w.flight.value.result, step.accepts);
    ReturnProgress(w.stream, w.flight.value.result, step.accepts);
  }

  lemma NotifyKnowsItsCampaign(w: World, step: Step)
    requires KnowsItsCampaign(w) && Enabled(w, step) && step.Notify?
    ensures KnowsItsCampaign(Next(w, step))
  {
  }

  lemma LoadKnowsItsCampaign(w: World, step: Step)
    requires KnowsItsCampaign(w) && Enabled(w, step) && Elsewhere(step)
    ensures KnowsItsCampaign(Next(w, step))
  {
  }

  lemma StepKnowsItsCampaign(w: World, step: Step)
    requires Sound(w) && KnowsItsCampaign(w) && Enabled(w, step)
    ensures KnowsItsCampaign(Next(w, step))
  {
    if Elsewhere(step) {
      LoadKnowsItsCampaign(w, step);
    } else if step.LoadReturns? {
      ReturnKnowsItsCampaign(w, step);
    } else if step.Notify? {
      NotifyKnowsItsCampaign(w, step);
    } else {
      SinkStepKeepsProgress(w, step);
    }
  }

  lemma NotifyKeepsWithdrawal(w: World, step: Step)
    requires Sound(w) && KnowsItsCampaign(w) && Enabled(w, step) && step.Notify? && WithdrawalPending(w)
    ensures WithdrawalPending(Next(w, step))
  {
    assert w.channel == [w.channel[0]] + w.channel[1..];
  }

  lemma ReturnKeepsWithdrawal(w: World, step: Step)
    requires Sound(w) && Enabled(w, step) && step.LoadReturns? && WithdrawalPending(w)
    ensures WithdrawalPending(Next(w, step))
  {
    ReturnProgress(w.stream, w.flight.value.result, step.accepts);
  }

  lemma LoadKeepsWithdrawal(w: World, step: Step)
    requires Sound(w) && Enabled(w, step) && Elsewhere(step) && (w.withdrawn ==> WithdrawalPending(w))
    ensures Next(w, step).withdrawn ==> WithdrawalPending(Next(w, step))
  {
  }

  lemma StepKeepsWithdrawal(w: World, step: Step)
    requires Sound(w) && KnowsItsCampaign(w) && Enabled(w, step) && (w.withdrawn ==> WithdrawalPending(w))
    ensures Next(w, step).withdrawn ==> WithdrawalPending(Next(w, step))
  {
    if Elsewhere(step) {
      LoadKeepsWithdrawal(w, step);
    } else if !w.withdrawn {
    } else if step.Notify? {
      NotifyKeepsWithdrawal(w, step);
    } else if step.LoadReturns? {
      ReturnKeepsWithdrawal(w, step);
    } else {
      SinkStepKeepsProgress(w, step);
    }
  }

  // ---------- every event that concerns the stream is answered by a new load, and no other is ----------

  /** The event is about what this display shows. */
  predicate Concerns(w: World, event: SceneEvent) {
    || (event.SceneChanged? && event.sceneId == w.request.sceneId)
    || (event.DisplayChanged? && event.displayId == w.request.displayId)
    || (event.CampaignChanged? && event.campaignId == w.campaignId)
  }

  /** A load was asked for, from its credential check on, after place `at` of the trace. */
  ghost predicate LoadedSince(w: World, at: nat) {
    exists j :: at < j < |w.trace| && (w.trace[j] == ReadCredential || w.trace[j].LoadFails?)
  }

  ghost predicate Pending(w: World) {
    w.stream.closed || (w.stream.loading && w.stream.dirty) || w.flight == Some(Asked)
  }

  ghost predicate CallsAnswered(w: World) {
    forall i {:trigger w.calls[i]} :: 0 <= i < |w.calls| && Concerns(w, w.calls[i].event) ==>
      w.calls[i].at < |w.trace| && (Pending(w) || LoadedSince(w, w.calls[i].at))
  }

  lemma LoadKeepsPending(w: World, step: Step)
    requires Sound(w) && Enabled(w, step) && Elsewhere(step) && Pending(w)
    ensures Pending(Next(w, step)) || step == ReadCredential || step.LoadFails?
  {
  }

  lemma PendingSteps(w: World, step: Step)
    requires Sound(w) && Enabled(w, step) && Pending(w)
    ensures Pending(Next(w, step)) || step == ReadCredential || step.LoadFails?
  {
    if Elsewhere(step) {
      LoadKeepsPending(w, step);
    } else if step.LoadReturns? {
      ReturnProgress(w.stream, w.flight.value.result, step.accepts);
    } else if TouchesSink(step) {
      SinkStepKeepsProgress(w, step);
    }
  }

  lemma LoadedSinceStays(w: World, step: Step, at: nat)
    requires Enabled(w, step) && at < |w.trace|
    ensures LoadedSince(w, at) ==> LoadedSince(Next(w, step), at)
    ensures step == ReadCredential || step.LoadFails? ==> LoadedSince(Next(w, step), at)
  {
    var v := Next(w, step);
    assert v.trace[|w.trace|] == step;
    if j :| at < j < |w.trace| && (w.trace[j] == ReadCredential || w.trace[j].LoadFails?) {
      assert v.trace[j] == w.trace[j];
    }
  }

  lemma ConcerningCallIsPending(w: World)
    requires Sound(w) && KnowsItsCampaign(w) && w.begun && w.channel != [] && w.stream.subscribed
    requires Concerns(w, w.channel[0])
    ensures Pending(Next(w, Notify))
  {
  }

  lemma StepKeepsCallsAnswered(w: World, step: Step)
    requires Sound(w) && KnowsItsCampaign(w) && CallsAnswered(w) && Enabled(w, step)
    ensures CallsAnswered(Next(w, step))
  {
    var v := Next(w, step);
    forall i | 0 <= i < |v.calls| && Concerns(v, v.calls[i].event)
      ensures v.calls[i].at < |v.trace| && (Pending(v) || LoadedSince(v, v.calls[i].at))
    {
      if i < |w.calls| {
        LoadedSinceStays(w, step, w.calls[i].at);
        if Pending(w) {
          PendingSteps(w, step);
        }
      } else {
        ConcerningCallIsPending(w);
      }
    }
  }

  lemma {:induction false} RunKeepsAnswering(w: World, steps: seq<Step>)
    requires Sound(w) && KnowsItsCampaign(w) && CallsAnswered(w) && (w.withdrawn ==> WithdrawalPending(w))
    requires IsRun(w, steps)
    ensures var v := After(w, steps);
      Sound(v) && KnowsItsCampaign(v) && CallsAnswered(v) && (v.withdrawn ==> WithdrawalPending(v))
    decreases |steps|
  {
    if |steps| > 0 {
      StepSound(w, steps[0]);
      StepKnowsItsCampaign(w, steps[0]);
      StepKeepsCallsAnswered(w, steps[0]);
      StepKeepsWithdrawal(w, steps[0]);
      RunKeepsAnswering(Next(w, steps[0]), steps[1..]);
    }
  }

  /** The stream of a scene whose image was deleted is closed or about to be, and at rest it is closed. */
  lemma NoWithdrawalIsMissed(
      request: Request, campaignId: string, committed: nat, channel: seq<SceneEvent>, steps: seq<Step>)
    requires IsRun(Start(request, campaignId, committed, channel), steps)
    ensures var w := After(Start(request, campaignId, committed, channel), steps);
      (w.withdrawn ==> WithdrawalPending(w)) && (w.withdrawn && Idle(w) ==> w.stream.closed)
  {
    RunKeepsAnswering(Start(request, campaignId, committed, channel), steps);
  }

  /** At rest and open, every event about its scene, display or campaign that reached it was followed by a new load. */
  lemma ConcerningEventsAreAnswered(
      request: Request, campaignId: string, committed: nat, channel: seq<SceneEvent>, steps: seq<Step>, i: nat)
    requires IsRun(Start(request, campaignId, committed, channel), steps)
    requires var w := After(Start(request, campaignId, committed, channel), steps);
      Idle(w) && !w.stream.closed && i < |w.calls| && Concerns(w, w.calls[i].event)
    ensures var w := After(Start(request, campaignId, committed, channel), steps); LoadedSince(w, w.calls[i].at)
  {
    RunKeepsAnswering(Start(request, campaignId, committed, channel), steps);
  }

  /** Once opened, a stream does not so much as notice an event about another scene, display or campaign. */
  lemma OtherEventsAreIgnored(
      request: Request, campaignId: string, committed: nat, channel: seq<SceneEvent>, steps: seq<Step>)
    requires IsRun(Start(request, campaignId, committed, channel), steps)
    requires var w := After(Start(request, campaignId, committed, channel), steps);
      w.begun && !w.stream.opening && w.channel != [] && !Concerns(w, w.channel[0])
    ensures var w := After(Start(request, campaignId, committed, channel), steps);
      Next(w, Notify).stream == w.stream && Next(w, Notify).flight == w.flight
  {
    RunKeepsAnswering(Start(request, campaignId, committed, channel), steps);
  }

  // ---------- and it does come to rest ----------

  predicate Productive(step: Step) {
    || step.Notify? || step.ReadCredential? || step.JoinOrBegin? || step.ReadRow? || step.Settle? || step.LookUpImage?
    || step.LoadReturns?
  }

  /** Work left: each notification may cost a load, each dirty mark one more, each load a few stages. */
  function Work(w: World): nat {
    9 * |w.channel| + (if w.stream.loading && w.stream.dirty then 8 else 0) + FlightWork(w.flight) +
      SharedWork(w.shared)
  }

  function FlightWork(flight: Option<Flight>): nat {
    match flight
    case None => 0
    case Some(Asked) => 7
    case Some(Admitted) => 6
    case Some(Awaiting) => 3
    case Some(Found(_, _)) => 2
    case Some(Answered(_, _)) => 1
  }

  function SharedWork(shared: Option<SharedRead>): nat {
    if shared.None? then 0 else if shared.value.Begun? then 2 else 1
  }

  lemma ProductiveStepWorks(w: World, step: Step)
    requires Sound(w) && Enabled(w, step) && Productive(step)
    ensures Work(Next(w, step)) < Work(w)
  {
    if step.LoadReturns? {
      ReturnProgress(w.stream, w.flight.value.result, step.accepts);
    }
  }

  lemma RestOrEnabled(w: World) returns (step: Step)
    requires Sound(w) && w.begun
    ensures Idle(w) || (Productive(step) && Enabled(w, step))
  {
    step :=
      if w.channel != [] then Notify
      else match w.flight
        case None => Notify
        case Some(Asked) => ReadCredential
        case Some(Admitted) => JoinOrBegin
        case Some(Awaiting) => if w.shared == Some(Begun) then ReadRow else Settle
        case Some(Found(_, _)) => LookUpImage
        case Some(Answered(_, _)) => LoadReturns(true);
  }

  /** Without new announcements every schedule of deliveries and loads is short, and can only stop at rest. */
  lemma {:induction false} ReloadsTerminate(w: World, steps: seq<Step>)
    requires Sound(w) && w.begun && IsRun(w, steps) && forall i :: 0 <= i < |steps| ==> Productive(steps[i])
    ensures |steps| + Work(After(w, steps)) <= Work(w)
    ensures (forall step :: Productive(step) ==> !Enabled(After(w, steps), step)) ==> Idle(After(w, steps))
    decreases |steps|
  {
    if |steps| == 0 {
      var step := RestOrEnabled(w);
    } else {
      ProductiveStepWorks(w, steps[0]);
      StepSound(w, steps[0]);
      ReloadsTerminate(Next(w, steps[0]), steps[1..]);
    }
  }
}
