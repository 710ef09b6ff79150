/**
 * One live display stream (src/campaigns/display-stream.ts): the state its callbacks share and the
 * effect of each piece of code that runs without interruption between two awaits.
 */
module StreamState {
  import opened Wrappers

  /** A notification on the scene-event channel (src/campaigns/scene-events.ts); any number can come as a revision. */
  datatype SceneEvent =
    | SceneChanged(sceneId: string, campaignId: string, revision: real)
    | DisplayChanged(displayId: string, campaignId: string)
    | CampaignChanged(campaignId: string)

  datatype Request = Request(displayId: string, sceneId: string)

  /** `LoadError` stands for every other error code and for a throw. */
  datatype LoadResult = Snapshot(campaignId: string, revision: nat) | NotFound | LoadError

  datatype Chunk = SceneChunk(revision: nat) | RevokedChunk | HeartbeatChunk

  /** What happens at the client's end of the response, in order. */
  datatype SinkEvent = Wrote(chunk: Chunk, accepted: bool) | Drained | Ended

  datatype Stream = Stream(
    opening: bool, closed: bool, subscribed: bool, attached: bool,
    campaignId: Option<string>, lastSent: nat, pending: Option<nat>,
    backpressured: bool, stallArmed: bool, loading: bool, dirty: bool, log: seq<SinkEvent>)
  {
    function Close(): Stream {
      if closed then this else
      this.(closed := true, subscribed := false, stallArmed := false, pending := None,
        log := if attached then log + [Ended] else log)
    }

    function Write(chunk: Chunk, accepts: bool): Stream {
      this.(log := log + [Wrote(chunk, accepts)], backpressured := !accepts, stallArmed := stallArmed || !accepts)
    }

    function Flush(revision: nat, accepts: bool): Stream {
      if closed then this
      else if !attached || backpressured then this.(pending := Some(revision))
      else Write(SceneChunk(revision), accepts)
    }

    function Drain(accepts: bool): Stream {
      var drained := this.(log := log + [Drained]);
      if closed then drained else
      var open := drained.(backpressured := false, stallArmed := false, pending := None);
      if pending.None? then open else open.Flush(pending.value, accepts)
    }

    function Deliver(revision: nat, accepts: bool): Stream {
      if revision <= lastSent then this else this.(lastSent := revision).Flush(revision, accepts)
    }

    function Revoke(accepts: bool): Stream {
      if closed then this else
      (if attached && !backpressured then this.(log := log + [Wrote(RevokedChunk, accepts)]) else this).Close()
    }

    function Reload(): Stream {
      if closed then this
      else if loading then this.(dirty := true)
      else this.(loading := true, dirty := false)
    }

    predicate Relevant(request: Request, event: SceneEvent) {
      match event
      case SceneChanged(sceneId, _, _) => sceneId == request.sceneId
      case DisplayChanged(displayId, _) => displayId == request.displayId
      case CampaignChanged(c) => campaignId.None? || campaignId.value == c
    }

    function OnEvent(request: Request, event: SceneEvent): Stream {
      if !closed && Relevant(request, event) then Reload() else this
    }

    function OnLost(): Stream { this.(subscribed := false).Close() }

    /** The do-while test after a delivered snapshot: load again when something changed meanwhile. */
    function Rerun(): Stream {
      if dirty && !closed then this.(dirty := false) else this.(loading := false, opening := false)
    }

    /** The first load, inside `open`. */
    function ReturnOpening(result: LoadResult, accepts: bool): Stream {
      match result
      case Snapshot(c, revision) => this.(campaignId := Some(c)).Deliver(revision, accepts).Rerun()
      case _ => this.(closed := true, subscribed := false, loading := false, opening := false)
    }

    function ReturnReload(result: LoadResult, accepts: bool): Stream {
      if closed then this.(loading := false) else
      match result
      case NotFound => Revoke(accepts).(loading := false)
      case LoadError => Close().(loading := false)
      case Snapshot(_, revision) => Deliver(revision, accepts).Rerun()
    }

    function Return(result: LoadResult, accepts: bool): Stream {
      if opening then ReturnOpening(result, accepts) else ReturnReload(result, accepts)
    }

    function Attach(accepts: bool): Stream {
      if closed || attached then this else
      var open := this.(attached := true, pending := None);
      if pending.None? then open else open.Flush(pending.value, accepts)
    }

    function Heartbeat(accepts: bool): Stream {
      if !closed && attached && !backpressured then Write(HeartbeatChunk, accepts) else this
    }

    function StallFires(): Stream { if stallArmed then Close() else this }
  }

  /** The stream as `open` leaves it at its first await: subscribed, first load in flight. */
  const Opening: Stream :=
    Stream(true, false, true, false, None, 0, None, false, false, true, false, [])

  // ---------- the client's view: what a well-behaved writer may do ----------

  /** The last write was refused and no drain followed. */
  predicate Blocked(log: seq<SinkEvent>) {
    |log| > 0 &&
    match log[|log| - 1]
    case Wrote(_, accepted) => !accepted
    case Drained => false
    case Ended => Blocked(log[..|log| - 1])
  }

  predicate HasEnded(log: seq<SinkEvent>) { Ended in log }

  /** No write while blocked, nothing written after the end, one end at most. */
  ghost predicate Disciplined(log: seq<SinkEvent>) {
    forall j {:trigger log[j]} :: 0 <= j < |log| ==>
      (log[j].Wrote? ==> !Blocked(log[..j]) && !HasEnded(log[..j])) &&
      (log[j].Ended? ==> !HasEnded(log[..j]))
  }

  /** The scene revisions the client was sent, in order. */
  function Scenes(log: seq<SinkEvent>): seq<nat> {
    if |log| == 0 then [] else
    var before := Scenes(log[..|log| - 1]);
    var last := log[|log| - 1];
    if last.Wrote? && last.chunk.SceneChunk? then before + [last.chunk.revision] else before
  }

  ghost predicate Increasing(revisions: seq<nat>) {
    forall i, j :: 0 <= i < j < |revisions| ==> revisions[i] < revisions[j]
  }

  ghost predicate AllAtMost(revisions: seq<nat>, bound: nat) {
    forall i :: 0 <= i < |revisions| ==> revisions[i] <= bound
  }

  ghost predicate EndsWith(revisions: seq<nat>, revision: nat) {
    |revisions| > 0 && revisions[|revisions| - 1] == revision
  }

  /** The output discipline as an invariant of the stream's own fields. */
  ghost predicate Tidy(s: Stream) {
    && Disciplined(s.log)
    && Increasing(Scenes(s.log)) && AllAtMost(Scenes(s.log), s.lastSent)
    && (HasEnded(s.log) <==> s.attached && s.closed)
    && (s.stallArmed <==> s.backpressured && !s.closed)
    && (!s.attached ==> s.log == [] && !s.backpressured)
    && (s.opening ==> !s.attached)
    && (!s.closed ==> s.subscribed && (Blocked(s.log) <==> s.backpressured) && Latest(s))
  }

  /** `pending` is the latest snapshot or nothing is owed to the client. */
  ghost predicate Latest(s: Stream) {
    && (s.pending.Some? ==> s.pending.value == s.lastSent && s.lastSent > 0 && (!s.attached || s.backpressured))
    && (s.pending.Some? ==> forall i :: 0 <= i < |Scenes(s.log)| ==> Scenes(s.log)[i] < s.lastSent)
    && (s.pending.None? && s.lastSent > 0 ==> s.attached && EndsWith(Scenes(s.log), s.lastSent))
  }

  lemma Append(log: seq<SinkEvent>, e: SinkEvent)
    requires Disciplined(log)
    requires e.Wrote? ==> !Blocked(log) && !HasEnded(log)
    requires e.Ended? ==> !HasEnded(log)
    ensures Disciplined(log + [e])
    ensures Scenes(log + [e]) == Scenes(log) + if e.Wrote? && e.chunk.SceneChunk? then [e.chunk.revision] else []
    ensures HasEnded(log + [e]) <==> HasEnded(log) || e.Ended?
    ensures Blocked(log + [e]) <==> (e.Wrote? && !e.accepted) || (e.Ended? && Blocked(log))
  {
    var all := log + [e];
    assert all[..|log|] == log && all[|log|] == e;
    forall j | 0 <= j < |all|
      ensures all[j].Wrote? ==> !Blocked(all[..j]) && !HasEnded(all[..j])
      ensures all[j].Ended? ==> !HasEnded(all[..j])
    {
      if j < |log| {
        assert all[..j] == log[..j] && all[j] == log[j];
      }
    }
  }

  lemma CloseTidy(s: Stream)
    requires Tidy(s)
    ensures Tidy(s.Close())
  {
    if !s.closed && s.attached {
      Append(s.log, Ended);
    }
  }

  lemma WriteTidy(s: Stream, chunk: Chunk, accepts: bool)
    requires Tidy(s) && !s.closed && s.attached && !s.backpressured && chunk == HeartbeatChunk
    ensures Tidy(s.Write(chunk, accepts))
  {
    Append(s.log, Wrote(chunk, accepts));
  }

  lemma SendTidy(s: Stream, revision: nat, accepts: bool)
    requires Tidy(s) && !s.closed && s.attached && !s.backpressured && revision > s.lastSent
    ensures Tidy(s.(lastSent := revision).Write(SceneChunk(revision), accepts))
  {
    var e := Wrote(SceneChunk(revision), accepts);
    Append(s.log, e);
    assert Scenes(s.log + [e])[|Scenes(s.log)|] == revision;
  }

  lemma KeepTidy(s: Stream, revision: nat)
    requires Tidy(s) && (s.closed || !s.attached || s.backpressured) && revision > s.lastSent
    ensures s.closed ==> Tidy(s.(lastSent := revision))
    ensures !s.closed ==> Tidy(s.(lastSent := revision, pending := Some(revision)))
  {
  }

  /** A strictly newer snapshot reaches `flush` with `lastSent` already moved. */
  lemma DeliverTidy(s: Stream, revision: nat, accepts: bool)
    requires Tidy(s)
    ensures Tidy(s.Deliver(revision, accepts))
  {
    if revision > s.lastSent {
      if s.closed || !s.attached || s.backpressured {
        KeepTidy(s, revision);
      } else {
        SendTidy(s, revision, accepts);
      }
    }
  }

  lemma RerunTidy(s: Stream)
    requires Tidy(s)
    ensures Tidy(s.Rerun())
  {
  }

  /** After the drain and before the pending snapshot is flushed, the snapshot is owed. */
  lemma FlushOwed(s: Stream, accepts: bool)
    requires s.attached && !s.closed && s.subscribed && !s.opening && !s.backpressured && !s.stallArmed &&
      s.pending.None?
    requires Disciplined(s.log) && !Blocked(s.log) && !HasEnded(s.log)
    requires Increasing(Scenes(s.log)) && forall i :: 0 <= i < |Scenes(s.log)| ==> Scenes(s.log)[i] < s.lastSent
    ensures Tidy(s.Flush(s.lastSent, accepts))
  {
    Append(s.log, Wrote(SceneChunk(s.lastSent), accepts));
    assert Scenes(s.log + [Wrote(SceneChunk(s.lastSent), accepts)])[|Scenes(s.log)|] == s.lastSent;
  }

  lemma DrainTidy(s: Stream, accepts: bool)
    requires Tidy(s) && s.attached
    ensures Tidy(s.Drain(accepts))
  {
    Append(s.log, Drained);
    if !s.closed && s.pending.Some? {
      FlushOwed(s.(log := s.log + [Drained], backpressured := false, stallArmed := false, pending := None), accepts);
    }
  }

  lemma RevokeTidy(s: Stream, accepts: bool)
    requires Tidy(s)
    ensures Tidy(s.Revoke(accepts))
  {
    if !s.closed && s.attached {
      if !s.backpressured {
        Append(s.log, Wrote(RevokedChunk, accepts));
        Append(s.log + [Wrote(RevokedChunk, accepts)], Ended);
      } else {
        Append(s.log, Ended);
      }
    }
  }

  lemma AttachTidy(s: Stream, accepts: bool)
    requires Tidy(s) && !s.opening
    ensures Tidy(s.Attach(accepts))
  {
    if !s.closed && !s.attached && s.pending.Some? {
      FlushOwed(s.(attached := true, pending := None), accepts);
    }
  }

  lemma ReturnTidy(s: Stream, result: LoadResult, accepts: bool)
    requires Tidy(s)
    ensures Tidy(s.Return(result, accepts))
  {
    if s.opening {
      if result.Snapshot? {
        var named := s.(campaignId := Some(result.campaignId));
        DeliverTidy(named, result.revision, accepts);
        RerunTidy(named.Deliver(result.revision, accepts));
      }
    } else if !s.closed {
      match result
      case NotFound => RevokeTidy(s, accepts);
      case LoadError => CloseTidy(s);
      case Snapshot(_, revision) =>
        DeliverTidy(s, revision, accepts);
        RerunTidy(s.Deliver(revision, accepts));
    }
  }
}

/** The stream as an object: fields and callbacks as in the source, each proved against its effect on the state. */
module StreamObject {
  import opened Wrappers
  import opened StreamState

  /** The HTTP response end: records what it was asked to do. */
  class Sink {
    var log: seq<SinkEvent>

    constructor ()
      ensures log == []
    {
      log := [];
    }

    /** `accepts` is the answer of the client's buffer. */
    method Write(chunk: Chunk, accepts: bool) returns (ok: bool)
      modifies this
      ensures log == old(log) + [Wrote(chunk, accepts)] && ok == accepts
    {
      log := log + [Wrote(chunk, accepts)];
      ok := accepts;
    }

    method End()
      modifies this
      ensures log == old(log) + [Ended]
    {
      log := log + [Ended];
    }
  }

  class OpenStream {
    const request: Request
    var opening: bool
    var closed: bool
    var subscribed: bool
    var sink: Sink?
    var campaignId: Option<string>
    var lastSent: nat
    var pending: Option<nat>
    var backpressured: bool
    var stallTimer: bool
    var loading: bool
    var dirty: bool

    ghost function View(): Stream
      reads this, sink
    {
      Stream(opening, closed, subscribed, sink != null, campaignId, lastSent, pending,
        backpressured, stallTimer, loading, dirty, if sink == null then [] else sink.log)
    }

    /** `open` up to its first await, once the hub accepted the subscription. */
    constructor (request: Request)
      ensures View() == Opening && this.request == request
    {
      this.request := request;
      opening, closed, subscribed, sink, campaignId := true, false, true, null, None;
      lastSent, pending, backpressured, stallTimer := 0, None, false, false;
      loading, dirty := true, false;
    }

    method Close()
      modifies this, sink
      ensures View() == old(View()).Close() && sink == old(sink)
    {
      if closed { return; }
      closed := true;
      subscribed := false;
      stallTimer := false;
      pending := None;
      if sink != null { sink.End(); }
    }

    method Flush(revision: nat, accepts: bool)
      modifies this, sink
      ensures View() == old(View()).Flush(revision, accepts) && sink == old(sink)
    {
      if closed { return; }
      if sink == null || backpressured {
        pending := Some(revision);
        return;
      }
      var ok := sink.Write(SceneChunk(revision), accepts);
      if !ok {
        backpressured := true;
        stallTimer := true;
      }
    }

    /** The response drained (only an attached sink can). */
    method OnDrain(accepts: bool)
      requires sink != null
      modifies this, sink
      ensures View() == old(View()).Drain(accepts) && sink == old(sink)
    {
      sink.log := sink.log + [Drained];
      if closed { return; }
      backpressured := false;
      stallTimer := false;
      var next := pending;
      pending := None;
      if next.Some? { Flush(next.value, accepts); }
    }

    method Deliver(revision: nat, accepts: bool)
      modifies this, sink
      ensures View() == old(View()).Deliver(revision, accepts) && sink == old(sink)
    {
      if revision <= lastSent { return; }
      lastSent := revision;
      Flush(revision, accepts);
    }

    method Revoke(accepts: bool)
      modifies this, sink
      ensures View() == old(View()).Revoke(accepts) && sink == old(sink)
    {
      if closed { return; }
      if sink != null && !backpressured {
        var _ := sink.Write(RevokedChunk, accepts);
      }
      Close();
    }

    /** `fetch` tells the caller that a load was started. */
    method Reload() returns (fetch: bool)
      modifies this
      ensures View() == old(View()).Reload() && sink == old(sink)
      ensures fetch <==> !old(closed) && !old(loading)
    {
      if closed { return false; }
      if loading {
        dirty := true;
        return false;
      }
      loading := true;
      dirty := false;
      fetch := true;
    }

    method OnEvent(event: SceneEvent)
      modifies this
      ensures View() == old(View()).OnEvent(request, event) && sink == old(sink)
    {
      var relevant := match event
        case SceneChanged(sceneId, _, _) => sceneId == request.sceneId
        case DisplayChanged(displayId, _) => displayId == request.displayId
        case CampaignChanged(c) => campaignId.None? || c == campaignId.value;
      if !closed && relevant {
        var _ := Reload();
      }
    }

    method OnLost()
      modifies this, sink
      ensures View() == old(View()).OnLost() && sink == old(sink)
    {
      subscribed := false;
      Close();
    }

    /** The do-while test shared by `open` and `reload`. */
    method Rerun()
      modifies this
      ensures View() == old(View()).Rerun() && sink == old(sink)
    {
      if dirty && !closed {
        dirty := false;
      } else {
        loading, opening := false, false;
      }
    }

    /** From the first load's return to the next await. */
    method OpeningReturned(result: LoadResult, accepts: bool)
      modifies this, sink
      ensures View() == old(View()).ReturnOpening(result, accepts) && sink == old(sink)
    {
      if !result.Snapshot? {
        closed, subscribed, loading, opening := true, false, false, false;
        return;
      }
      campaignId := Some(result.campaignId);
      Deliver(result.revision, accepts);
      Rerun();
    }

    /** From a later load's return to the next await. */
    method ReloadReturned(result: LoadResult, accepts: bool)
      modifies this, sink
      ensures View() == old(View()).ReturnReload(result, accepts) && sink == old(sink)
    {
      if closed {
        loading := false;
        return;
      }
      if !result.Snapshot? {
        if result.NotFound? { Revoke(accepts); } else { Close(); }
        loading := false;
        return;
      }
      Deliver(result.revision, accepts);
      Rerun();
    }

    /** A second attach is ignored; a late one only ends the newcomer. */
    method Attach(target: Sink, accepts: bool)
      modifies this, sink, target
      ensures old(target.log) == [] && target != old(sink) ==> View() == old(View()).Attach(accepts)
      ensures sink == if old(closed) || old(sink) != null then old(sink) else target
      ensures target.log == old(target.log) +
        (if old(closed) then [Ended]
         else if old(sink) == null && old(pending).Some? && !old(backpressured)
         then [Wrote(SceneChunk(old(pending).value), accepts)] else [])
    {
      if closed || sink != null {
        if closed { target.End(); }
        return;
      }
      sink := target;
      var first := pending;
      pending := None;
      if first.Some? { Flush(first.value, accepts); }
    }

    method Heartbeat(accepts: bool)
      modifies this, sink
      ensures View() == old(View()).Heartbeat(accepts) && sink == old(sink)
    {
      if !closed && sink != null && !backpressured {
        var ok := sink.Write(HeartbeatChunk, accepts);
        if !ok {
          backpressured := true;
          stallTimer := true;
        }
      }
    }

    method StallFires()
      modifies this, sink
      ensures View() == old(View()).StallFires() && sink == old(sink)
    {
      if stallTimer { Close(); }
    }
  }
}
