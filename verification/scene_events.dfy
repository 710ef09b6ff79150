/**
 * The channel between scene writes and streams: payload coding and the listening hub (src/campaigns/scene-events.ts).
 */
module SceneEventCoding {
  import opened Wrappers
  import opened StreamState

  datatype Json = JString(s: string) | JNumber(n: real) | JObject(fields: map<string, Json>) | JOther

  function Encode(e: SceneEvent): Json {
    match e
    case SceneChanged(scene, campaign, revision) =>
      JObject(map["k" := JString("scene"), "s" := JString(scene), "c" := JString(campaign), "r" := JNumber(revision)])
    case DisplayChanged(display, campaign) =>
      JObject(map["k" := JString("display"), "d" := JString(display), "c" := JString(campaign)])
    case CampaignChanged(campaign) => JObject(map["k" := JString("campaign"), "c" := JString(campaign)])
  }

  /** A field that is there and a string. */
  predicate HasString(fields: map<string, Json>, name: string) { name in fields && fields[name].JString? }

  /** `None` is a missing or unparsable payload. */
  function Decode(payload: Option<Json>): Option<SceneEvent> {
    if payload.None? || !payload.value.JObject? || !HasString(payload.value.fields, "c") then None
    else
      var fields := payload.value.fields;
      var campaign := fields["c"].s;
      var kind := if HasString(fields, "k") then fields["k"].s else "";
      if kind == "scene" && HasString(fields, "s") && "r" in fields && fields["r"].JNumber? then
        Some(SceneChanged(fields["s"].s, campaign, fields["r"].n))
      else if kind == "display" && HasString(fields, "d") then Some(DisplayChanged(fields["d"].s, campaign))
      else if kind == "campaign" then Some(CampaignChanged(campaign))
      else None
  }

  /** The fields on the wire, kind by kind. */
  lemma PayloadFields(fields: map<string, Json>, a: string, c: string, r: real)
    ensures Decode(Some(JObject(fields))) == Some(SceneChanged(a, c, r)) <==>
      Says(fields, "k", JString("scene")) && Says(fields, "s", JString(a)) && Says(fields, "c", JString(c)) &&
      Says(fields, "r", JNumber(r))
    ensures Decode(Some(JObject(fields))) == Some(DisplayChanged(a, c)) <==>
      Says(fields, "k", JString("display")) && Says(fields, "d", JString(a)) && Says(fields, "c", JString(c))
    ensures Decode(Some(JObject(fields))) == Some(CampaignChanged(c)) <==>
      Says(fields, "k", JString("campaign")) && Says(fields, "c", JString(c))
  {
    assert "scene" != "display" && "scene" != "campaign" && "display" != "campaign" && |"scene"| == 5;
  }

  predicate Says(fields: map<string, Json>, name: string, value: Json) { name in fields && fields[name] == value }

  lemma RoundTrip(e: SceneEvent)
    ensures Decode(Some(Encode(e))) == Some(e)
  {
    match e
    case SceneChanged(_, _, _) => assert "scene" != "display" && "scene" != "campaign";
    case DisplayChanged(_, _) => assert "display" != "scene" && "display" != "campaign";
    case CampaignChanged(_) => assert "campaign" != "scene" && "campaign" != "display";
  }

  /** `a` has every field of `b`, with the same value. */
  ghost predicate Covers(a: map<string, Json>, b: map<string, Json>) {
    forall name :: name in b ==> name in a && a[name] == b[name]
  }

  /** What is decoded is exactly what was encoded, give or take fields nobody reads. */
  lemma DecodesOnlyEncodings(payload: Json, e: SceneEvent)
    ensures Decode(Some(payload)) == Some(e) <==> payload.JObject? && Covers(payload.fields, Encode(e).fields)
  {
    assert "scene" != "display" && "scene" != "campaign" && "display" != "campaign" && |"scene"| == 5;
    if payload.JObject? && Covers(payload.fields, Encode(e).fields) {
      var fields := Encode(e).fields;
      assert "k" in fields && "c" in fields;
      assert e.SceneChanged? ==> "s" in fields && "r" in fields;
      assert e.DisplayChanged? ==> "d" in fields;
    }
  }
}

/** One dedicated listening connection; subscribers are told of every event, and once if the connection is lost. */
module SceneEventHub {
  import opened Wrappers
  import opened StreamState

  type Listener = nat

  datatype Told = Event(listener: Listener, event: SceneEvent) | Lost(listener: Listener)

  function TellAll(listeners: seq<Listener>, e: SceneEvent): (r: seq<Told>)
    ensures |r| == |listeners| && forall i :: 0 <= i < |r| ==> r[i] == Event(listeners[i], e)
  {
    if |listeners| == 0 then [] else [Event(listeners[0], e)] + TellAll(listeners[1..], e)
  }

  function LoseAll(listeners: seq<Listener>): (r: seq<Told>)
    ensures |r| == |listeners| && forall i :: 0 <= i < |r| ==> r[i] == Lost(listeners[i])
  {
    if |listeners| == 0 then [] else [Lost(listeners[0])] + LoseAll(listeners[1..])
  }

  function Drop(listeners: seq<Listener>, l: Listener): (r: seq<Listener>)
    ensures forall k :: k in r <==> k in listeners && k != l
  {
    if |listeners| == 0 then []
    else if listeners[0] == l then Drop(listeners[1..], l)
    else [listeners[0]] + Drop(listeners[1..], l)
  }

  /** `clients` counts connections made; a connection's handlers are attached exactly while it is `client`. */
  datatype Hub = Hub(
    listeners: seq<Listener>, client: Option<nat>, clients: nat, listening: bool, closed: bool, timer: bool,
    attempt: nat, told: seq<Told>)
  {
    function ScheduleRetry(): Hub {
      if closed || timer then this else this.(timer := true, attempt := attempt + 1)
    }

    function Lose(): Hub {
      var off := this.(listening := false, client := None);
      (if listening then off.(listeners := [], told := told + LoseAll(listeners)) else off).ScheduleRetry()
    }

    function Connect(): Hub {
      if closed || client.Some? then this else this.(client := Some(clients), clients := clients + 1)
    }

    function Listening(c: nat): Hub {
      if client != Some(c) || closed then this else this.(listening := true, attempt := 0)
    }

    function ConnectFails(c: nat): Hub { if client == Some(c) then Lose() else this }

    function Notify(c: nat, event: Option<SceneEvent>): Hub {
      if client != Some(c) || event.None? then this else this.(told := told + TellAll(listeners, event.value))
    }

    function TimerFires(): Hub { this.(timer := false).Connect() }

    function Subscribe(l: Listener): Hub {
      if !listening || l in listeners then this else this.(listeners := listeners + [l])
    }

    function Unsubscribe(l: Listener): Hub { this.(listeners := Drop(listeners, l)) }

    function Close(): Hub { this.(closed := true, timer := false, client := None, listening := false, listeners := []) }
  }

  class HubObject {
    var listeners: seq<Listener>
    var client: Option<nat>
    var clients: nat
    var listening: bool
    var closed: bool
    var timer: bool
    var attempt: nat
    var told: seq<Told>

    ghost function View(): Hub reads this { Hub(listeners, client, clients, listening, closed, timer, attempt, told) }

    constructor ()
      ensures View() == Hub([], None, 0, false, false, false, 0, [])
    {
      listeners, client, clients, listening, closed, timer, attempt, told := [], None, 0, false, false, false, 0, [];
    }

    method ScheduleRetry()
      modifies this
      ensures View() == old(View()).ScheduleRetry()
    {
      if closed || timer { return; }
      attempt := attempt + 1;
      timer := true;
    }

    /** Each subscriber is dropped and told, in the order they subscribed. */
    method Lose()
      requires forall i, j :: 0 <= i < j < |listeners| ==> listeners[i] != listeners[j]
      modifies this
      ensures View() == old(View()).Lose()
    {
      var wasListening := listening;
      listening := false;
      client := None;
      if wasListening {
        var snapshot := listeners;
        for i := 0 to |snapshot|
          invariant listeners == snapshot[i..]
          invariant told == old(told) + LoseAll(snapshot)[..i]
          invariant !listening && client.None? && clients == old(clients) && closed == old(closed) &&
            timer == old(timer) && attempt == old(attempt)
        {
          DropFirst(listeners);
          listeners := Drop(listeners, snapshot[i]);
          told := told + [Lost(snapshot[i])];
        }
        assert LoseAll(snapshot)[..|snapshot|] == LoseAll(snapshot);
      }
      ScheduleRetry();
    }

    lemma {:induction false} DropNone(all: seq<Listener>, l: Listener)
      requires l !in all
      ensures Drop(all, l) == all
    {
      if |all| > 0 {
        DropNone(all[1..], l);
      }
    }

    lemma DropFirst(all: seq<Listener>)
      requires forall i, j :: 0 <= i < j < |all| ==> all[i] != all[j]
      ensures |all| > 0 ==> Drop(all, all[0]) == all[1..]
    {
      if |all| > 0 {
        DropNone(all[1..], all[0]);
      }
    }

    method Notify(c: nat, event: Option<SceneEvent>)
      modifies this
      ensures View() == old(View()).Notify(c, event)
    {
      if client != Some(c) || event.None? { return; }
      ghost var tells := TellAll(listeners, event.value);
      for i := 0 to |listeners|
        invariant told == old(told) + tells[..i]
        invariant listeners == old(listeners) && client == old(client) && clients == old(clients) &&
          listening == old(listening)
        invariant closed == old(closed) && timer == old(timer) && attempt == old(attempt)
      {
        told := told + [Event(listeners[i], event.value)];
      }
      assert tells[..|listeners|] == tells;
    }

    method Subscribe(l: Listener) returns (accepted: bool)
      modifies this
      ensures View() == old(View()).Subscribe(l) && accepted == old(listening)
    {
      if !listening { return false; }
      if l !in listeners { listeners := listeners + [l]; }
      return true;
    }

    method TimerFires()
      modifies this
      ensures View() == old(View()).TimerFires()
    {
      timer := false;
      if closed || client.Some? { return; }
      client, clients := Some(clients), clients + 1;
    }
  }

  // ---------- runs ----------

  datatype Step =
    | Start
    | Listens(client: nat)
    | ConnectFails(client: nat)
    | Breaks
    | Delivered(client: nat, event: Option<SceneEvent>)
    | Timer
    | Subscribes(listener: Listener)
    | Unsubscribes(listener: Listener)
    | Closes

  /** A broken connection reports only while its handlers are attached. */
  predicate Enabled(h: Hub, step: Step) {
    match step
    case Breaks => h.client.Some?
    case Timer => h.timer
    case _ => true
  }

  function Next(h: Hub, step: Step): Hub {
    match step
    case Start => h.Connect()
    case Listens(c) => h.Listening(c)
    case ConnectFails(c) => h.ConnectFails(c)
    case Breaks => h.Lose()
    case Delivered(c, event) => h.Notify(c, event)
    case Timer => h.TimerFires()
    case Subscribes(l) => h.Subscribe(l)
    case Unsubscribes(l) => h.Unsubscribe(l)
    case Closes => h.Close()
  }

  ghost predicate IsRun(h: Hub, steps: seq<Step>)
    decreases |steps|
  {
    |steps| > 0 ==> Enabled(h, steps[0]) && IsRun(Next(h, steps[0]), steps[1..])
  }

  function Final(h: Hub, steps: seq<Step>): Hub
    decreases |steps|
  {
    if |steps| == 0 then h else Final(Next(h, steps[0]), steps[1..])
  }

  ghost predicate Unique(listeners: seq<Listener>) {
    forall i, j :: 0 <= i < j < |listeners| ==> listeners[i] != listeners[j]
  }

  /** Nobody is registered without a live connection, and an open hub that has none has a retry coming. */
  ghost predicate Attended(h: Hub) {
    && Unique(h.listeners)
    && (h.listeners != [] ==> h.listening)
    && (h.listening ==> h.client.Some? && !h.closed)
    && (if h.closed then h.client.None? && !h.timer else h.client.Some? || h.timer)
  }

  lemma {:induction false} DropStaysUnique(listeners: seq<Listener>, l: Listener)
    requires Unique(listeners)
    ensures Unique(Drop(listeners, l))
  {
    if |listeners| > 0 {
      DropStaysUnique(listeners[1..], l);
      var rest := Drop(listeners[1..], l);
      forall j | 0 <= j < |rest| ensures rest[j] != listeners[0] {
        assert rest[j] in rest;
        var i :| 0 <= i < |listeners[1..]| && listeners[1..][i] == rest[j];
        assert listeners[i + 1] == rest[j];
      }
    }
  }

  lemma StepKeepsAttended(h: Hub, step: Step)
    requires Attended(h) && Enabled(h, step)
    ensures Attended(Next(h, step))
  {
    if step.Unsubscribes? {
      DropStaysUnique(h.listeners, step.listener);
    }
  }

  lemma {:induction false} RunKeepsAttended(h: Hub, steps: seq<Step>)
    requires Attended(h) && IsRun(h, steps)
    ensures Attended(Final(h, steps))
    decreases |steps|
  {
    if |steps| > 0 {
      StepKeepsAttended(h, steps[0]);
      RunKeepsAttended(Next(h, steps[0]), steps[1..]);
    }
  }

  /**
   * From its start on, an open hub is connecting, listening or about to retry, and nobody waits on a dead connection.
   */
  lemma StartedHubIsAttended(steps: seq<Step>)
    requires IsRun(Hub([], None, 0, false, false, false, 0, []).Connect(), steps)
    ensures Attended(Final(Hub([], None, 0, false, false, false, 0, []).Connect(), steps))
  {
    RunKeepsAttended(Hub([], None, 0, false, false, false, 0, []).Connect(), steps);
  }

  /** How often, and how, `l` has been told. */
  function Losses(told: seq<Told>, l: Listener): nat {
    if |told| == 0 then 0 else (if told[|told| - 1] == Lost(l) then 1 else 0) + Losses(told[..|told| - 1], l)
  }

  function Heard(told: seq<Told>, l: Listener): seq<SceneEvent> {
    if |told| == 0 then [] else
    var last := told[|told| - 1];
    Heard(told[..|told| - 1], l) + (if last.Event? && last.listener == l then [last.event] else [])
  }

  lemma {:induction false} LossesAdd(a: seq<Told>, b: seq<Told>, l: Listener)
    ensures Losses(a + b, l) == Losses(a, l) + Losses(b, l) && Heard(a + b, l) == Heard(a, l) + Heard(b, l)
  {
    if |b| == 0 {
      assert a + b == a;
    } else {
      assert (a + b)[..|a + b| - 1] == a + b[..|b| - 1];
      LossesAdd(a, b[..|b| - 1], l);
    }
  }

  lemma {:induction false} ToldAll(listeners: seq<Listener>, e: SceneEvent, l: Listener)
    requires Unique(listeners)
    ensures Losses(TellAll(listeners, e), l) == 0 &&
      Heard(TellAll(listeners, e), l) == if l in listeners then [e] else []
  {
    if |listeners| > 0 {
      ToldAll(listeners[1..], e, l);
      LossesAdd([Event(listeners[0], e)], TellAll(listeners[1..], e), l);
      assert Heard([Event(listeners[0], e)], l) == if listeners[0] == l then [e] else [];
      assert listeners == [listeners[0]] + listeners[1..];
      FirstIsAlone(listeners);
    }
  }

  lemma FirstIsAlone(listeners: seq<Listener>)
    requires Unique(listeners) && |listeners| > 0
    ensures listeners[0] !in listeners[1..]
  {
    forall i | 0 <= i < |listeners[1..]| ensures listeners[1..][i] != listeners[0] {
      assert listeners[1..][i] == listeners[i + 1];
    }
  }

  lemma OneLost(first: Listener, l: Listener)
    ensures Heard([Lost(first)], l) == [] && Losses([Lost(first)], l) == if first == l then 1 else 0
  {
  }

  lemma {:induction false} LostAll(listeners: seq<Listener>, l: Listener)
    requires Unique(listeners)
    ensures Heard(LoseAll(listeners), l) == [] && Losses(LoseAll(listeners), l) == if l in listeners then 1 else 0
  {
    if |listeners| > 0 {
      LostAll(listeners[1..], l);
      OneLost(listeners[0], l);
      LossesAdd([Lost(listeners[0])], LoseAll(listeners[1..]), l);
      FirstIsAlone(listeners);
      assert l in listeners <==> l == listeners[0] || l in listeners[1..];
    }
  }

  ghost predicate Reaches(h: Hub, step: Step, l: Listener) {
    l in h.listeners && step.Delivered? && h.client == Some(step.client) && step.event.Some?
  }

  /** The events that reach `l` in a run: those delivered on the live connection while it is registered. */
  ghost function Due(h: Hub, steps: seq<Step>, l: Listener): seq<SceneEvent>
    decreases |steps|
  {
    if |steps| == 0 then [] else
    var step := steps[0];
    (if Reaches(h, step, l) then [step.event.value] else []) + Due(Next(h, step), steps[1..], l)
  }

  ghost predicate Leaves(step: Step, l: Listener) { step.Closes? || step == Unsubscribes(l) || step == Subscribes(l) }

  ghost predicate Stays(steps: seq<Step>, l: Listener) { forall i :: 0 <= i < |steps| ==> !Leaves(steps[i], l) }

  lemma DeliveryTells(h: Hub, step: Step, l: Listener)
    requires Unique(h.listeners) && step.Delivered?
    ensures var t := Next(h, step);
      t.listeners == h.listeners && Losses(t.told, l) == Losses(h.told, l) &&
      Heard(t.told, l) == Heard(h.told, l) + (if Reaches(h, step, l) then [step.event.value] else [])
  {
    if h.client == Some(step.client) && step.event.Some? {
      LossesAdd(h.told, TellAll(h.listeners, step.event.value), l);
      ToldAll(h.listeners, step.event.value, l);
    }
  }

  lemma LosingTells(h: Hub, l: Listener)
    requires Attended(h)
    ensures var t := h.Lose();
      l !in t.listeners && Heard(t.told, l) == Heard(h.told, l) &&
      Losses(t.told, l) == Losses(h.told, l) + if l in h.listeners then 1 else 0
  {
    if h.listening {
      LossesAdd(h.told, LoseAll(h.listeners), l);
      LostAll(h.listeners, l);
    }
  }

  /** Steps that tell nobody anything. */
  lemma QuietStep(h: Hub, step: Step, l: Listener)
    requires !Leaves(step, l) && !step.Delivered? && !step.Breaks? &&
      !(step.ConnectFails? && h.client == Some(step.client))
    ensures var t := Next(h, step); t.told == h.told && (l in t.listeners <==> l in h.listeners)
  {
  }

  /** From `h` to `t`, `l` heard `events`, and was told of a loss exactly if it is registered no more. */
  ghost predicate Served(h: Hub, t: Hub, l: Listener, events: seq<SceneEvent>) {
    && (l in t.listeners ==> l in h.listeners)
    && Heard(t.told, l) == Heard(h.told, l) + events
    && Losses(t.told, l) == Losses(h.told, l) + if l in h.listeners && l !in t.listeners then 1 else 0
  }

  lemma ServedChains(h: Hub, m: Hub, t: Hub, l: Listener, a: seq<SceneEvent>, b: seq<SceneEvent>)
    requires Served(h, m, l, a) && Served(m, t, l, b)
    ensures Served(h, t, l, a + b)
  {
    assert Heard(h.told, l) + a + b == Heard(h.told, l) + (a + b);
  }

  lemma StepServes(h: Hub, step: Step, l: Listener)
    requires Attended(h) && Enabled(h, step) && !Leaves(step, l)
    ensures Served(h, Next(h, step), l, if Reaches(h, step, l) then [step.event.value] else [])
  {
    if step.Delivered? {
      DeliveryTells(h, step, l);
    } else if step.Breaks? || (step.ConnectFails? && h.client == Some(step.client)) {
      LosingTells(h, l);
    } else {
      QuietStep(h, step, l);
    }
  }

  /**
   * A subscriber that stays is never silently dropped: it hears exactly the events delivered while it is
   * registered, in order, and is told of a loss exactly once, which is exactly when it is registered no more.
   */
  lemma {:induction false} NeverSilentlyDropped(h: Hub, steps: seq<Step>, l: Listener)
    requires Attended(h) && IsRun(h, steps) && Stays(steps, l)
    ensures Served(h, Final(h, steps), l, Due(h, steps, l))
    decreases |steps|
  {
    if |steps| > 0 {
      var mid := Next(h, steps[0]);
      assert !Leaves(steps[0], l);
      StepServes(h, steps[0], l);
      StepKeepsAttended(h, steps[0]);
      forall i | 0 <= i < |steps[1..]| ensures !Leaves(steps[1..][i], l) {
        assert steps[1..][i] == steps[i + 1];
      }
      NeverSilentlyDropped(mid, steps[1..], l);
      var heard := if Reaches(h, steps[0], l) then [steps[0].event.value] else [];
      ServedChains(h, mid, Final(h, steps), l, heard, Due(mid, steps[1..], l));
    }
  }

  // ---------- who is registered, and what the hub is doing ----------

  /** The live connection is gone, or could not be made. */
  predicate Breaking(h: Hub, step: Step) {
    step.Breaks? || (step.ConnectFails? && h.client == Some(step.client))
  }

  predicate Registers(h: Hub, step: Step, l: Listener) { step == Subscribes(l) && h.listening }

  /** Out again by their own wish, when the hub closes or when the connection they listened on is gone. */
  predicate Drops(h: Hub, step: Step, l: Listener) {
    step == Unsubscribes(l) || step.Closes? || (Breaking(h, step) && h.listening)
  }

  lemma RegisteredExactlyWhen(h: Hub, step: Step, l: Listener)
    requires Enabled(h, step)
    ensures l in Next(h, step).listeners <==> (l in h.listeners || Registers(h, step, l)) && !Drops(h, step, l)
  {
  }

  /** Connecting when open and unconnected; listening from the live connection's word until it or the hub ends. */
  lemma ConnectionMoves(h: Hub, step: Step)
    requires Attended(h) && Enabled(h, step)
    ensures var t := Next(h, step); var connects := (step.Start? || step.Timer?) && h.client.None? && !h.closed;
      && (t.closed <==> h.closed || step.Closes?)
      && t.clients == h.clients + (if connects then 1 else 0)
      && t.client ==
           (if connects then Some(h.clients) else if Breaking(h, step) || step.Closes? then None else h.client)
      && (t.listening <==>
           (h.listening || (step.Listens? && h.client == Some(step.client))) && !Breaking(h, step) && !step.Closes?)
  {
  }

  /** Retries: one is armed whenever an open hub loses its connection, and each is a longer try until one listens. */
  lemma RetriesAreCounted(h: Hub, step: Step)
    requires Attended(h) && Enabled(h, step)
    ensures var t := Next(h, step); var arms := Breaking(h, step) && !h.closed && !h.timer;
      && (t.timer <==> arms || (h.timer && !step.Timer? && !step.Closes?))
      && t.attempt == (if arms then h.attempt + 1
                       else if step.Listens? && h.client == Some(step.client) then 0 else h.attempt)
  {
  }

  /** Closing tells nobody anything, and a closed hub never connects, registers, retries or tells again. */
  lemma {:induction false} ClosedHubStaysQuiet(h: Hub, steps: seq<Step>)
    requires Attended(h) && h.closed && IsRun(h, steps)
    ensures var t := Final(h, steps);
      && t.closed && t.told == h.told && t.listeners == [] && t.client.None? && !t.timer && t.clients == h.clients
    decreases |steps|
  {
    if |steps| > 0 {
      StepKeepsAttended(h, steps[0]);
      ClosedHubStaysQuiet(Next(h, steps[0]), steps[1..]);
    }
  }
}
