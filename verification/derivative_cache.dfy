/**
 * Cached redacted images and the renders that fill the cache (`renderDerivative` and its neighbours in
 * src/campaigns/display.ts).
 */
module DerivativeService {
  import opened Wrappers
  import FogMask

  type SceneId = string

  /** A stored file's content. */
  type Bytes = seq<int>

  datatype Key = Key(scene: SceneId, imageRevision: nat)

  /** The composite is a function of these two and nothing else; FogMask says which. */
  datatype Derivative = Derivative(background: Bytes, fog: seq<FogMask.FogOp>)

  /** One run of the render closure: about to look again, compositing, done writing and pruning, over. */
  datatype Phase = Started | Rendering | Written | Settled(result: Option<Derivative>)

  datatype Task = Task(key: Key, source: Derivative, phase: Phase)

  /** `cache` is the directory; `renders` the in-flight map; a task's index is its promise. */
  datatype Service = Service(cache: map<Key, Derivative>, renders: map<Key, nat>, tasks: seq<Task>) {
    predicate Has(t: nat) { t < |tasks| && !tasks[t].phase.Settled? }

    /** Join the render of this key that is under way, or start one. */
    function Render(key: Key, source: Derivative): (Service, nat) {
      if key in renders then (this, renders[key])
      else (this.(renders := renders[key := |tasks|], tasks := tasks + [Task(key, source, Started)]), |tasks|)
    }

    function Settle(t: nat, result: Option<Derivative>): Service
      requires t < |tasks|
    {
      this.(tasks := tasks[t := tasks[t].(phase := Settled(result))], renders := renders - {tasks[t].key})
    }

    function LookAgain(t: nat): Service
      requires Has(t)
    {
      if tasks[t].key in cache then Settle(t, Some(cache[tasks[t].key]))
      else this.(tasks := tasks[t := tasks[t].(phase := Rendering)])
    }

    function Write(t: nat, renamed: bool): Service
      requires Has(t)
    {
      this.(tasks := tasks[t := tasks[t].(phase := Written)],
        cache := if renamed then cache[tasks[t].key := tasks[t].source] else cache)
    }

    ghost function Prune(scene: SceneId, keep: nat): Service {
      this.(cache := map k | k in cache && !(k.scene == scene && k.imageRevision < keep) :: cache[k])
    }

    ghost function Purge(scenes: set<SceneId>): Service {
      this.(cache := map k | k in cache && k.scene !in scenes :: cache[k])
    }
  }

  class Renderer {
    var cache: map<Key, Derivative>
    var renders: map<Key, nat>
    var tasks: seq<Task>

    ghost function View(): Service reads this { Service(cache, renders, tasks) }

    constructor ()
      ensures View() == Service(map[], map[], [])
    {
      cache, renders, tasks := map[], map[], [];
    }

    method RenderDerivative(key: Key, source: Derivative) returns (task: nat)
      modifies this
      ensures (View(), task) == old(View()).Render(key, source)
    {
      if key in renders { return renders[key]; }
      task := |tasks|;
      tasks := tasks + [Task(key, source, Started)];
      renders := renders[key := task];
    }

    /** Settling clears the in-flight entry first, so nobody joins a finished render. */
    method SettleTask(t: nat, result: Option<Derivative>)
      requires t < |tasks|
      modifies this
      ensures View() == old(View()).Settle(t, result)
    {
      renders := renders - {tasks[t].key};
      tasks := tasks[t := tasks[t].(phase := Settled(result))];
    }

    method LookAgain(t: nat)
      requires View().Has(t)
      modifies this
      ensures View() == old(View()).LookAgain(t)
    {
      var key := tasks[t].key;
      if key in cache {
        SettleTask(t, Some(cache[key]));
      } else {
        tasks := tasks[t := tasks[t].(phase := Rendering)];
      }
    }

    /** Temporary file, then rename; a failed write is swallowed because the bytes are served anyway. */
    method WriteDerivative(t: nat, renamed: bool)
      requires View().Has(t)
      modifies this
      ensures View() == old(View()).Write(t, renamed)
    {
      if renamed {
        cache := cache[tasks[t].key := tasks[t].source];
      }
      tasks := tasks[t := tasks[t].(phase := Written)];
    }

    /** Every older revision of the scene goes, every other file stays, whatever order the directory lists them in. */
    method PruneOlderDerivatives(scene: SceneId, keep: nat)
      modifies this`cache
      ensures View() == old(View()).Prune(scene, keep)
    {
      var names := cache.Keys;
      while names != {}
        invariant names <= old(cache).Keys && cache.Keys <= old(cache).Keys
        invariant forall k :: k in cache ==> cache[k] == old(cache)[k]
        invariant forall k ::
          k in old(cache) ==> (k in cache <==> k in names || !(k.scene == scene && k.imageRevision < keep))
        decreases |names|
      {
        var name :| name in names;
        names := names - {name};
        if name.scene == scene && name.imageRevision < keep {
          cache := cache - {name};
        }
      }
    }

    method PurgeCampaignDerivatives(scenes: set<SceneId>)
      modifies this`cache
      ensures View() == old(View()).Purge(scenes)
    {
      var names := cache.Keys;
      while names != {}
        invariant names <= old(cache).Keys && cache.Keys <= old(cache).Keys
        invariant forall k :: k in cache ==> cache[k] == old(cache)[k]
        invariant forall k :: k in old(cache) ==> (k in cache <==> k in names || k.scene !in scenes)
        decreases |names|
      {
        var name :| name in names;
        names := names - {name};
        if name.scene in scenes {
          cache := cache - {name};
        }
      }
    }
  }
}

/** Display requests, shared row reads, racing renders, evictions and scene commands, interleaved in any way. */
module CacheRuns {
  import opened Wrappers
  import opened DerivativeService
  import FogMask
  import L = SceneLibrary

  /** Background and fog of every scene at every image revision it has had. */
  type History = map<Key, (L.FileId, seq<FogMask.FogOp>)>

  /** Moments are counted in scene commands: nothing else changes what a scene looks like. */
  type Time = nat

  datatype Progress = Begun | HasRead(found: Option<L.Scene>, at: Time) | Over(found: Option<L.Scene>, at: Time)

  /** One row read of `loadSharedScene`; its index is its promise. */
  datatype Load = Load(scene: L.SceneId, progress: Progress)

  /**
   * One call of `getDisplaySceneImage`, between two of its awaits: when it `began`, when the row that names the
   * image revision was `read`, when the image was `inHand`, when it was `served`. `rejoined` marks a recheck that
   * joined a load whose row had been read already.
   */
  datatype Request =
    | Resolving(scene: L.SceneId, rev: nat, load: nat, began: Time)
    | Resolved(key: Key, row: L.Scene, read: Time, began: Time)
    | Checked(key: Key, row: L.Scene, read: Time, began: Time)
    | Missed(key: Key, row: L.Scene)
    | Loaded(key: Key, row: L.Scene, bytes: Bytes)
    | AwaitingRender(key: Key, task: nat)
    | Rendered(key: Key, image: Derivative, inHand: Time)
    | Rechecking(key: Key, image: Derivative, inHand: Time, load: nat, rejoined: bool)
    | ServedHit(key: Key, image: Derivative, read: Time, served: Time, began: Time)
    | ServedRender(key: Key, image: Derivative, read: Time, served: Time, inHand: Time, rejoined: bool)
    | Refused

  predicate IsServed(q: Request) { q.ServedHit? || q.ServedRender? }

  /**
   * `born`, `history` and `past` only record: what was ever written under a file's storage key, what each image
   * revision stood for, and the library before each command.
   */
  datatype World = World(
    lib: L.Library, disk: map<L.FileId, Bytes>, staged: set<L.FileId>, doomed: set<L.FileId>,
    born: map<L.FileId, Bytes>, history: History, past: seq<L.Library>,
    loads: seq<Load>, sceneLoads: map<L.SceneId, nat>, service: Service, requests: seq<Request>)

  /** `Evict` is any single file that goes missing: a removal another one was cut short at, or an operator's. */
  datatype Step =
    | Command(step: L.Step)
    | Stage(file: L.FileId, bytes: Bytes)
    | Unlink(file: L.FileId)
    | Ask(scene: L.SceneId, rev: nat)
    | ReadRow(l: nat)
    | BreakRead(l: nat)
    | SettleRead(l: nat)
    | Resume(r: nat)
    | CheckMedia(r: nat)
    | ReadCache(r: nat)
    | ReadBytes(r: nat)
    | StartOrJoin(r: nat)
    | LookAgain(t: nat)
    | Write(t: nat, renamed: bool)
    | Prune(t: nat)
    | Finish(t: nat)
    | Fail(t: nat)
    | Collect(r: nat)
    | Recheck(r: nat)
    | Decide(r: nat)
    | Evict(key: Key)
    | Purge(scenes: set<L.SceneId>)

  predicate Holds(w: World, r: nat) { r < |w.requests| }

  predicate IsOver(w: World, l: nat) { l < |w.loads| && w.loads[l].progress.Over? }

  ghost predicate Enabled(w: World, step: Step) {
    match step
    case Command(s) =>
      L.Enabled(w.lib, s) &&
      (s.Do? && s.command.UploadImage? ==>
         s.command.file in w.staged && s.command.file in w.disk && s.command.size == |w.disk[s.command.file]|)
    case Stage(file, _) => file !in w.born
    case Unlink(file) => file in w.doomed
    case Ask(_, _) => true
    case ReadRow(l) => l < |w.loads| && w.loads[l].progress.Begun?
    case BreakRead(l) => l < |w.loads| && w.loads[l].progress.Begun?
    case SettleRead(l) => l < |w.loads| && w.loads[l].progress.HasRead?
    case Resume(r) => Holds(w, r) && w.requests[r].Resolving? && IsOver(w, w.requests[r].load)
    case CheckMedia(r) => Holds(w, r) && w.requests[r].Resolved?
    case ReadCache(r) => Holds(w, r) && w.requests[r].Checked?
    case ReadBytes(r) => Holds(w, r) && w.requests[r].Missed?
    case StartOrJoin(r) => Holds(w, r) && w.requests[r].Loaded?
    case LookAgain(t) => w.service.Has(t) && w.service.tasks[t].phase.Started?
    case Write(t, _) => w.service.Has(t) && w.service.tasks[t].phase.Rendering?
    case Prune(t) => w.service.Has(t) && w.service.tasks[t].phase.Written?
    case Finish(t) => w.service.Has(t) && w.service.tasks[t].phase.Written?
    case Fail(t) => w.service.Has(t) && w.service.tasks[t].phase.Rendering?
    case Collect(r) =>
      Holds(w, r) && w.requests[r].AwaitingRender? && w.requests[r].task < |w.service.tasks| &&
      w.service.tasks[w.requests[r].task].phase.Settled?
    case Recheck(r) => Holds(w, r) && w.requests[r].Rendered?
    case Decide(r) => Holds(w, r) && w.requests[r].Rechecking? && IsOver(w, w.requests[r].load)
    case Evict(_) => true
    case Purge(_) => true
  }

  function Now(w: World): Time { |w.past| }

  /** The library as it was at a moment. */
  function LibAt(w: World, t: Time): L.Library { if t < |w.past| then w.past[t] else w.lib }

  predicate Names(lib: L.Library, k: Key) {
    k.scene in lib.scenes && lib.scenes[k.scene].imageRevision == k.imageRevision
  }

  ghost function Recorded(history: History, lib: L.Library): History {
    map k | k in history.Keys + (set s | s in lib.scenes :: Key(s, lib.scenes[s].imageRevision)) ::
      if Names(lib, k) then (lib.scenes[k.scene].background, lib.scenes[k.scene].fog) else history[k]
  }

  ghost function AfterCommand(w: World, s: L.Step): World {
    var lib := L.Next(w.lib, s);
    var uploaded := if s.Do? && s.command.UploadImage? then {s.command.file} else {};
    var failed := if lib == w.lib then uploaded else {};
    var deleted := if s.Do? && s.command.DeleteImage? && lib != w.lib then {s.command.file} else {};
    w.(lib := lib, staged := w.staged - uploaded, doomed := w.doomed + failed + deleted,
      history := Recorded(w.history, lib), past := w.past + [w.lib])
  }

  ghost function Put(w: World, r: nat, q: Request): World
    requires Holds(w, r)
  {
    w.(requests := w.requests[r := q])
  }

  /** `loadSharedScene`: join the entry that is there, or make one. */
  function Shared(w: World, scene: L.SceneId): (World, nat) {
    if scene in w.sceneLoads then (w, w.sceneLoads[scene])
    else (w.(loads := w.loads + [Load(scene, Begun)], sceneLoads := w.sceneLoads[scene := |w.loads|]), |w.loads|)
  }

  function Advance(w: World, l: nat, progress: Progress): World
    requires l < |w.loads|
  {
    w.(loads := w.loads[l := w.loads[l].(progress := progress)],
      sceneLoads := if progress.Over? then w.sceneLoads - {w.loads[l].scene} else w.sceneLoads)
  }

  ghost function Next(w: World, step: Step): World
    requires Enabled(w, step)
  {
    match step
    case Command(s) => AfterCommand(w, s)
    case Stage(file, bytes) =>
      w.(born := w.born[file := bytes], disk := w.disk[file := bytes], staged := w.staged + {file})
    case Unlink(file) => w.(disk := w.disk - {file})
    case Ask(scene, rev) =>
      var (v, load) := Shared(w, scene);
      v.(requests := w.requests + [Resolving(scene, rev, load, Now(w))])
    case ReadRow(l) => Advance(w, l, HasRead(Find(w.lib.scenes, w.loads[l].scene), Now(w)))
    case BreakRead(l) => Advance(w, l, Over(None, Now(w)))
    case SettleRead(l) => Advance(w, l, Over(w.loads[l].progress.found, w.loads[l].progress.at))
    case Resume(r) =>
      var q := w.requests[r];
      var p := w.loads[q.load].progress;
      Put(w, r, if p.found.Some? && p.found.value.imageRevision == q.rev
                then Resolved(Key(q.scene, q.rev), p.found.value, p.at, q.began) else Refused)
    case CheckMedia(r) =>
      var q := w.requests[r];
      Put(w, r, if L.Owns(w.lib.media, q.row.campaign, q.row.background)
                then Checked(q.key, q.row, q.read, q.began) else Refused)
    case ReadCache(r) =>
      var q := w.requests[r];
      Put(w, r, if q.key in w.service.cache then ServedHit(q.key, w.service.cache[q.key], q.read, Now(w), q.began)
                else Missed(q.key, q.row))
    case ReadBytes(r) =>
      var q := w.requests[r];
      Put(w, r, if q.row.background in w.disk then Loaded(q.key, q.row, w.disk[q.row.background]) else Refused)
    case StartOrJoin(r) =>
      var q := w.requests[r];
      var (service, task) := w.service.Render(q.key, Derivative(q.bytes, q.row.fog));
      Put(w, r, AwaitingRender(q.key, task)).(service := service)
    case LookAgain(t) => w.(service := w.service.LookAgain(t))
    case Write(t, renamed) => w.(service := w.service.Write(t, renamed))
    case Prune(t) => w.(service := w.service.Prune(w.service.tasks[t].key.scene, w.service.tasks[t].key.imageRevision))
    case Finish(t) => w.(service := w.service.Settle(t, Some(w.service.tasks[t].source)))
    case Fail(t) => w.(service := w.service.Settle(t, None))
    case Collect(r) =>
      var q := w.requests[r];
      var result := w.service.tasks[q.task].phase.result;
      Put(w, r, if result.Some? then Rendered(q.key, result.value, Now(w)) else Refused)
    case Recheck(r) =>
      var q := w.requests[r];
      var (v, load) := Shared(w, q.key.scene);
      var rejoined := load < |v.loads| && !v.loads[load].progress.Begun?;
      v.(requests := w.requests[r := Rechecking(q.key, q.image, q.inHand, load, rejoined)])
    case Decide(r) =>
      var q := w.requests[r];
      var p := w.loads[q.load].progress;
      Put(w, r, if p.found.Some? && p.found.value.imageRevision == q.key.imageRevision
                then ServedRender(q.key, q.image, p.at, Now(w), q.inHand, q.rejoined) else Refused)
    case Evict(key) => w.(service := w.service.(cache := w.service.cache - {key}))
    case Purge(scenes) => w.(service := w.service.Purge(scenes))
  }

  // ---------- what is true of every image, wherever it is ----------

  /** `image` is the composite of what scene and image revision `key` stand for. */
  ghost predicate Depicts(w: World, key: Key, image: Derivative) {
    key in w.history && w.history[key].0 in w.born && image == Derivative(w.born[w.history[key].0], w.history[key].1)
  }

  ghost predicate Seen(w: World, scene: L.SceneId, row: L.Scene) {
    Key(scene, row.imageRevision) in w.history && w.history[Key(scene, row.imageRevision)] == (row.background, row.fog)
  }

  ghost predicate ScenesRecorded(w: World) {
    && (forall s {:trigger w.lib.scenes[s]} :: s in w.lib.scenes ==> Seen(w, s, w.lib.scenes[s]))
    && (forall k {:trigger k in w.history} :: k in w.history ==>
         k.scene in w.lib.scenes && k.imageRevision <= w.lib.scenes[k.scene].imageRevision)
  }

  ghost predicate FilesSound(w: World) {
    && (forall f :: f in w.disk ==> f in w.born && w.disk[f] == w.born[f])
    && (forall f {:trigger w.lib.media[f]} {:trigger f in w.lib.media} :: f in w.lib.media ==>
         f in w.disk && w.lib.media[f].size == |w.disk[f]| && f !in w.staged && f !in w.doomed)
    && w.staged !! w.doomed
    && (forall f :: f in w.staged ==> f in w.disk)
    && (forall f :: f in w.doomed ==> f in w.born)
  }

  ghost predicate TasksSound(s: Service) {
    && (forall k :: k in s.renders ==> s.Has(s.renders[k]) && s.tasks[s.renders[k]].key == k)
    && (forall t :: 0 <= t < |s.tasks| && !s.tasks[t].phase.Settled? ==>
         s.tasks[t].key in s.renders && s.renders[s.tasks[t].key] == t)
  }

  ghost predicate TaskDepicts(w: World, task: Task) {
    && Depicts(w, task.key, task.source)
    && (task.phase.Settled? && task.phase.result.Some? ==> Depicts(w, task.key, task.phase.result.value))
  }

  ghost predicate ServiceDepicts(w: World) {
    && (forall k :: k in w.service.cache ==> Depicts(w, k, w.service.cache[k]))
    && (forall t :: 0 <= t < |w.service.tasks| ==> TaskDepicts(w, w.service.tasks[t]))
  }

  /** At moment t the scene of `key` was at the image revision of `key`. */
  ghost predicate CurrentAt(w: World, key: Key, t: Time) {
    t <= Now(w) && key.scene in LibAt(w, t).scenes && LibAt(w, t).scenes[key.scene].imageRevision == key.imageRevision
  }

  /** So it was when its row was read, and the records know that row. */
  ghost predicate ReadAt(w: World, key: Key, t: Time) {
    CurrentAt(w, key, t) && Seen(w, key.scene, LibAt(w, t).scenes[key.scene])
  }

  ghost predicate RowOf(w: World, scene: L.SceneId, row: L.Scene, at: Time) {
    Seen(w, scene, row) && at <= Now(w) && scene in LibAt(w, at).scenes && LibAt(w, at).scenes[scene] == row
  }

  ghost predicate LoadSound(w: World, load: Load) {
    !load.progress.Begun? && load.progress.found.Some? ==>
      RowOf(w, load.scene, load.progress.found.value, load.progress.at)
  }

  /** The entries of `sceneLoads` are reads that are not over. */
  ghost predicate EntriesSound(w: World) {
    forall s {:trigger w.sceneLoads[s]} :: s in w.sceneLoads ==>
      w.sceneLoads[s] < |w.loads| && w.loads[w.sceneLoads[s]].scene == s && !w.loads[w.sceneLoads[s]].progress.Over?
  }

  ghost predicate LoadsSound(w: World) {
    forall l {:trigger w.loads[l]} :: 0 <= l < |w.loads| ==> LoadSound(w, w.loads[l])
  }

  /** A load that had not read its row at moment t reads it, if at all, no earlier. */
  ghost predicate ReadsAfter(w: World, l: nat, t: Time) {
    l < |w.loads| && (w.loads[l].progress.Begun? || t <= w.loads[l].progress.at)
  }

  ghost predicate Awaits(w: World, l: nat, scene: L.SceneId) { l < |w.loads| && w.loads[l].scene == scene }

  ghost predicate RequestSound(w: World, q: Request) {
    match q
    case Resolving(scene, _, load, began) => Awaits(w, load, scene) && began <= Now(w)
    case Resolved(key, row, read, began) =>
      Seen(w, key.scene, row) && row.imageRevision == key.imageRevision &&
      ReadAt(w, key, read) && began <= Now(w)
    case Checked(key, row, read, began) =>
      Seen(w, key.scene, row) && row.imageRevision == key.imageRevision &&
      ReadAt(w, key, read) && began <= Now(w)
    case Missed(key, row) => Seen(w, key.scene, row) && row.imageRevision == key.imageRevision
    case Loaded(key, row, bytes) => Depicts(w, key, Derivative(bytes, row.fog))
    case AwaitingRender(key, task) => task < |w.service.tasks| && w.service.tasks[task].key == key
    case Rendered(key, image, inHand) => Depicts(w, key, image) && inHand <= Now(w)
    case Rechecking(key, image, inHand, load, rejoined) =>
      Depicts(w, key, image) && inHand <= Now(w) && Awaits(w, load, key.scene) &&
        (!rejoined ==> ReadsAfter(w, load, inHand))
    case ServedHit(key, image, read, served, began) =>
      Depicts(w, key, image) && ReadAt(w, key, read) && read <= served <= Now(w) && began <= served
    case ServedRender(key, image, read, served, inHand, rejoined) =>
      Depicts(w, key, image) && ReadAt(w, key, read) && read <= served <= Now(w) && inHand <= served &&
        (!rejoined ==> inHand <= read)
    case Refused => true
  }

  ghost predicate RequestsSound(w: World) {
    forall r {:trigger w.requests[r]} :: 0 <= r < |w.requests| ==> RequestSound(w, w.requests[r])
  }

  /** From one moment to the next scenes only move on, and their image revision moves exactly with their picture. */
  ghost predicate MovesOn(a: L.Library, b: L.Library) {
    L.Evolves(a, b) &&
    forall s {:trigger a.scenes[s]} :: s in a.scenes ==>
      (b.scenes[s].imageRevision != a.scenes[s].imageRevision <==>
       (b.scenes[s].background != a.scenes[s].background || b.scenes[s].fog != a.scenes[s].fog))
  }

  ghost predicate MovedOn(w: World, t: Time) { MovesOn(LibAt(w, t), LibAt(w, t + 1)) }

  ghost predicate PastSound(w: World) { forall t {:trigger MovedOn(w, t)} :: 0 <= t < |w.past| ==> MovedOn(w, t) }

  ghost predicate StoreSound(w: World) { ScenesRecorded(w) && FilesSound(w) && PastSound(w) }

  ghost predicate Sound(w: World) {
    StoreSound(w) && TasksSound(w.service) && ServiceDepicts(w) && EntriesSound(w) && LoadsSound(w) && RequestsSound(w)
  }

  // ---------- records only grow ----------

  ghost predicate LoadGrows(a: Load, b: Load) {
    && b.scene == a.scene
    && (!a.progress.Begun? ==>
         !b.progress.Begun? && b.progress.found == a.progress.found && b.progress.at == a.progress.at)
  }

  ghost predicate LoadsGrow(a: World, b: World) {
    |a.loads| <= |b.loads| && forall l {:trigger b.loads[l]} {:trigger a.loads[l]} :: 0 <= l < |a.loads| ==>
      LoadGrows(a.loads[l], b.loads[l]) &&
        (a.loads[l].progress.Begun? && !b.loads[l].progress.Begun? ==> Now(a) <= b.loads[l].progress.at)
  }

  ghost predicate PastGrows(a: World, b: World) {
    Now(a) <= Now(b) && forall t {:trigger LibAt(b, t)} :: 0 <= t <= Now(a) ==> LibAt(b, t) == LibAt(a, t)
  }

  /** What an image depicts, what a row said and when, never changes. */
  ghost predicate Grows(a: World, b: World) {
    && (forall k :: k in a.history ==> k in b.history && b.history[k] == a.history[k])
    && (forall f :: f in a.born ==> f in b.born && b.born[f] == a.born[f])
    && PastGrows(a, b)
    && LoadsGrow(a, b)
    && |a.service.tasks| <= |b.service.tasks|
    && (forall t :: 0 <= t < |a.service.tasks| ==> b.service.tasks[t].key == a.service.tasks[t].key)
  }

  lemma ReadStays(a: World, b: World, key: Key, t: Time)
    requires Grows(a, b) && ReadAt(a, key, t)
    ensures ReadAt(b, key, t)
  {
    assert LibAt(b, t) == LibAt(a, t);
  }

  lemma RowStays(a: World, b: World, load: Load)
    requires Grows(a, b) && LoadSound(a, load)
    ensures LoadSound(b, load)
  {
    if !load.progress.Begun? {
      assert load.progress.at <= Now(a) && load.progress.found.Some? ==>
        LibAt(b, load.progress.at) == LibAt(a, load.progress.at);
    }
  }

  lemma RequestStaysSound(a: World, b: World, q: Request)
    requires Grows(a, b) && RequestSound(a, q)
    ensures RequestSound(b, q)
  {
    match q
    case Resolved(key, _, read, _) => ReadStays(a, b, key, read);
    case Checked(key, _, read, _) => ReadStays(a, b, key, read);
    case ServedHit(key, _, read, _, _) => ReadStays(a, b, key, read);
    case ServedRender(key, _, read, _, _, _) => ReadStays(a, b, key, read);
    case Resolving(_, _, load, _) => assert LoadGrows(a.loads[load], b.loads[load]);
    case Rechecking(_, _, _, load, _) => assert LoadGrows(a.loads[load], b.loads[load]);
    case _ =>
  }

  lemma RequestsStaySound(a: World, b: World)
    requires RequestsSound(a) && Grows(a, b) && b.requests == a.requests
    ensures RequestsSound(b)
  {
    forall r | 0 <= r < |b.requests| ensures RequestSound(b, b.requests[r]) {
      RequestStaysSound(a, b, a.requests[r]);
    }
  }

  /** Request `r` moves, or is added at the end. */
  ghost predicate Moves(a: seq<Request>, b: seq<Request>, r: nat) {
    r < |b| && (if r < |a| then b == a[r := b[r]] else b == a + [b[r]])
  }

  lemma OneRequestMoves(a: World, b: World, r: nat)
    requires RequestsSound(a) && Grows(a, b)
    requires Moves(a.requests, b.requests, r) && RequestSound(b, b.requests[r])
    ensures RequestsSound(b)
  {
    forall i | 0 <= i < |b.requests| ensures RequestSound(b, b.requests[i]) {
      if i != r {
        RequestStaysSound(a, b, a.requests[i]);
      }
    }
  }

  lemma LoadsStaySound(a: World, b: World)
    requires LoadsSound(a) && Grows(a, b) && b.loads == a.loads
    ensures LoadsSound(b)
  {
    forall l | 0 <= l < |b.loads| ensures LoadSound(b, b.loads[l]) {
      RowStays(a, b, a.loads[l]);
    }
  }

  lemma ServiceStays(a: World, b: World)
    requires ServiceDepicts(a) && Grows(a, b) && b.service == a.service
    ensures ServiceDepicts(b)
  {
    forall t | 0 <= t < |b.service.tasks| ensures TaskDepicts(b, b.service.tasks[t]) {
      assert TaskDepicts(a, a.service.tasks[t]);
    }
    forall k | k in b.service.cache ensures Depicts(b, k, b.service.cache[k]) {
      assert Depicts(a, k, a.service.cache[k]);
    }
  }

  // ---------- scene commands ----------

  lemma RecordedAt(history: History, lib: L.Library, k: Key)
    ensures var now := k.scene in lib.scenes && lib.scenes[k.scene].imageRevision == k.imageRevision;
      && (k in Recorded(history, lib) <==> k in history || now)
      && (now ==> Recorded(history, lib)[k] == (lib.scenes[k.scene].background, lib.scenes[k.scene].fog))
      && (!now && k in history ==> Recorded(history, lib)[k] == history[k])
  {
  }

  lemma CommandRecords(w: World, s: L.Step)
    requires ScenesRecorded(w) && L.Enabled(w.lib, s)
    ensures ScenesRecorded(AfterCommand(w, s))
    ensures forall k ::
      k in w.history ==> k in AfterCommand(w, s).history && AfterCommand(w, s).history[k] == w.history[k]
  {
    L.StepEvolves(w.lib, s);
    var lib := L.Next(w.lib, s);
    var v := AfterCommand(w, s);
    forall k | k in w.history ensures k in v.history && v.history[k] == w.history[k] {
      RecordedAt(w.history, lib, k);
      assert L.Later(w.lib.scenes[k.scene], lib.scenes[k.scene]);
      assert Seen(w, k.scene, w.lib.scenes[k.scene]);
    }
    forall id | id in lib.scenes ensures Seen(v, id, lib.scenes[id]) {
      RecordedAt(w.history, lib, Key(id, lib.scenes[id].imageRevision));
    }
    forall k | k in v.history ensures k.scene in lib.scenes && k.imageRevision <= lib.scenes[k.scene].imageRevision {
      RecordedAt(w.history, lib, k);
      if k in w.history {
        assert L.Later(w.lib.scenes[k.scene], lib.scenes[k.scene]);
      }
    }
  }

  lemma CommandKeepsFiles(w: World, s: L.Step)
    requires FilesSound(w) && Enabled(w, Command(s))
    ensures FilesSound(AfterCommand(w, s))
  {
  }

  lemma CommandKeepsPast(w: World, s: L.Step)
    requires PastSound(w) && L.Enabled(w.lib, s)
    ensures PastSound(AfterCommand(w, s)) && PastGrows(w, AfterCommand(w, s))
  {
    var v := AfterCommand(w, s);
    L.StepEvolves(w.lib, s);
    forall id | id in w.lib.scenes
      ensures v.lib.scenes[id].imageRevision != w.lib.scenes[id].imageRevision <==>
        (v.lib.scenes[id].background != w.lib.scenes[id].background || v.lib.scenes[id].fog != w.lib.scenes[id].fog)
    {
      L.ImageRevisionTracksPicture(w.lib, s, id);
    }
    assert MovesOn(w.lib, v.lib);
    forall t | 0 <= t < |v.past| ensures MovedOn(v, t) {
      if t < |w.past| {
        assert MovedOn(w, t) && LibAt(v, t) == LibAt(w, t) && LibAt(v, t + 1) == LibAt(w, t + 1);
      }
    }
  }

  /** The scene commands leave cache, renders, reads and requests alone. */
  lemma CommandKeepsSound(w: World, s: L.Step)
    requires Sound(w) && Enabled(w, Command(s))
    ensures Sound(AfterCommand(w, s)) && Grows(w, AfterCommand(w, s))
  {
    var v := AfterCommand(w, s);
    CommandRecords(w, s);
    CommandKeepsFiles(w, s);
    CommandKeepsPast(w, s);
    ServiceStays(w, v);
    LoadsStaySound(w, v);
    RequestsStaySound(w, v);
  }

  // ---------- renders ----------

  ghost predicate IsRenderStep(step: Step) { step.LookAgain? || step.Write? || step.Finish? || step.Fail? }

  lemma RenderStepKeepsTasks(w: World, step: Step)
    requires TasksSound(w.service) && Enabled(w, step) && IsRenderStep(step)
    ensures TasksSound(Next(w, step).service) && Grows(w, Next(w, step))
  {
  }

  lemma RenderStepDepicts(w: World, step: Step)
    requires ServiceDepicts(w) && Enabled(w, step) && IsRenderStep(step)
    ensures ServiceDepicts(Next(w, step))
  {
    var v := Next(w, step);
    assert TaskDepicts(w, w.service.tasks[step.t]);
    forall t | 0 <= t < |v.service.tasks| ensures TaskDepicts(v, v.service.tasks[t]) {
      assert TaskDepicts(w, w.service.tasks[t]);
    }
    forall k | k in v.service.cache ensures Depicts(v, k, v.service.cache[k]) {
      assert k in w.service.cache ==> Depicts(w, k, w.service.cache[k]);
    }
  }

  lemma RenderStepKeepsSound(w: World, step: Step)
    requires Sound(w) && Enabled(w, step) && IsRenderStep(step)
    ensures Sound(Next(w, step)) && Grows(w, Next(w, step))
  {
    var v := Next(w, step);
    RenderStepKeepsTasks(w, step);
    RenderStepDepicts(w, step);
    assert v == w.(service := v.service);
    LoadsStaySound(w, v);
    RequestsStaySound(w, v);
    StoreStays(w, v);
  }

  /** The store's side does not look at cache, reads or requests. */
  lemma StoreStays(a: World, b: World)
    requires StoreSound(a) &&
      b == a.(loads := b.loads, sceneLoads := b.sceneLoads, service := b.service, requests := b.requests)
    ensures StoreSound(b) && PastGrows(a, b)
  {
    forall t | 0 <= t < |b.past| ensures MovedOn(b, t) {
      assert MovedOn(a, t) && LibAt(b, t) == LibAt(a, t) && LibAt(b, t + 1) == LibAt(a, t + 1);
    }
  }

  /** Cached files only disappear. */
  lemma ShrinkKeepsSound(w: World, v: World)
    requires Sound(w) && v == w.(service := w.service.(cache := v.service.cache))
    requires forall k :: k in v.service.cache ==> k in w.service.cache && v.service.cache[k] == w.service.cache[k]
    ensures Sound(v) && Grows(w, v)
  {
    forall t | 0 <= t < |v.service.tasks| ensures TaskDepicts(v, v.service.tasks[t]) {
      assert TaskDepicts(w, w.service.tasks[t]);
    }
    forall k | k in v.service.cache ensures Depicts(v, k, v.service.cache[k]) {
      assert Depicts(w, k, w.service.cache[k]);
    }
    StoreStays(w, v);
    LoadsStaySound(w, v);
    RequestsStaySound(w, v);
  }

  lemma RenderKeepsTasks(s: Service, key: Key, source: Derivative)
    requires TasksSound(s)
    ensures var (v, task) := s.Render(key, source);
      TasksSound(v) && task < |v.tasks| && v.tasks[task].key == key && v.cache == s.cache && s.tasks <= v.tasks &&
      forall t :: |s.tasks| <= t < |v.tasks| ==> v.tasks[t] == Task(key, source, Started)
  {
  }

  lemma StartOrJoinKeepsSound(w: World, r: nat)
    requires Sound(w) && Enabled(w, StartOrJoin(r))
    ensures Sound(Next(w, StartOrJoin(r))) && Grows(w, Next(w, StartOrJoin(r)))
  {
    var v := Next(w, StartOrJoin(r));
    assert RequestSound(w, w.requests[r]);
    RenderKeepsTasks(w.service, w.requests[r].key, Derivative(w.requests[r].bytes, w.requests[r].row.fog));
    forall t | 0 <= t < |v.service.tasks| ensures TaskDepicts(v, v.service.tasks[t]) {
      if t < |w.service.tasks| {
        assert TaskDepicts(w, w.service.tasks[t]);
      }
    }
    StoreStays(w, v);
    LoadsStaySound(w, v);
    OneRequestMoves(w, v, r);
  }

  // ---------- shared row reads ----------

  /** Reads and requests move; nothing else does. */
  lemma ReadsMove(w: World, v: World)
    requires Sound(w) && v == w.(loads := v.loads, sceneLoads := v.sceneLoads, requests := v.requests)
    requires LoadsGrow(w, v)
    ensures StoreSound(v) && Grows(w, v) && ServiceDepicts(v)
  {
    StoreStays(w, v);
    ServiceStays(w, v);
  }

  lemma SharingKeepsLoads(w: World, scene: L.SceneId)
    requires EntriesSound(w) && LoadsSound(w)
    ensures var (v, load) := Shared(w, scene);
      EntriesSound(v) && LoadsSound(v) && LoadsGrow(w, v) && Awaits(v, load, scene) && !v.loads[load].progress.Over?
  {
    var (v, load) := Shared(w, scene);
    forall l | 0 <= l < |v.loads| ensures LoadSound(v, v.loads[l]) {
      if l < |w.loads| {
        assert LoadSound(w, w.loads[l]);
      }
    }
    assert scene in w.sceneLoads ==> v == w;
  }

  lemma AskKeepsSound(w: World, step: Step)
    requires Sound(w) && Enabled(w, step) && (step.Ask? || step.Recheck?)
    ensures Sound(Next(w, step)) && Grows(w, Next(w, step))
  {
    var v := Next(w, step);
    var scene := if step.Ask? then step.scene else w.requests[step.r].key.scene;
    SharingKeepsLoads(w, scene);
    ReadsMove(w, v);
    var r := if step.Ask? then |w.requests| else step.r;
    if step.Recheck? {
      assert RequestSound(w, w.requests[r]);
      RequestStaysSound(w, v, w.requests[r]);
    }
    OneRequestMoves(w, v, r);
    LoadsCarryOver(Shared(w, scene).0, v);
  }

  /** Loads do not look at requests. */
  lemma LoadsCarryOver(a: World, b: World)
    requires EntriesSound(a) && LoadsSound(a) && b == a.(requests := b.requests)
    ensures EntriesSound(b) && LoadsSound(b)
  {
    forall l | 0 <= l < |b.loads| ensures LoadSound(b, b.loads[l]) {
      assert LoadSound(a, a.loads[l]);
    }
  }

  lemma ReadStepKeepsSound(w: World, step: Step)
    requires Sound(w) && Enabled(w, step) && (step.ReadRow? || step.BreakRead? || step.SettleRead?)
    ensures Sound(Next(w, step)) && Grows(w, Next(w, step))
  {
    var v := Next(w, step);
    assert LoadSound(w, w.loads[step.l]);
    assert LoadsGrow(w, v);
    ReadsMove(w, v);
    forall l | 0 <= l < |v.loads| ensures LoadSound(v, v.loads[l]) {
      assert LoadSound(w, w.loads[l]);
      if step.ReadRow? && l == step.l && w.loads[l].scene in w.lib.scenes {
        assert Seen(w, w.loads[l].scene, w.lib.scenes[w.loads[l].scene]);
      }
    }
    RequestsStaySound(w, v);
  }

  // ---------- requests advancing by themselves ----------

  ghost predicate IsRequestStep(step: Step) {
    step.Resume? || step.CheckMedia? || step.ReadCache? || step.ReadBytes? || step.Collect? || step.Decide?
  }

  lemma CollectedIsSound(w: World, r: nat)
    requires Sound(w) && Enabled(w, Collect(r))
    ensures RequestSound(w, Next(w, Collect(r)).requests[r])
  {
    assert RequestSound(w, w.requests[r]);
    assert TaskDepicts(w, w.service.tasks[w.requests[r].task]);
  }

  lemma ResumedIsSound(w: World, step: Step)
    requires Sound(w) && Enabled(w, step) && (step.Resume? || step.Decide?)
    ensures RequestSound(w, Next(w, step).requests[step.r])
  {
    assert RequestSound(w, w.requests[step.r]);
    assert LoadSound(w, w.loads[w.requests[step.r].load]);
  }

  lemma MovedRequestIsSound(w: World, step: Step)
    requires Sound(w) && Enabled(w, step) && (step.CheckMedia? || step.ReadCache? || step.ReadBytes?)
    ensures RequestSound(w, Next(w, step).requests[step.r])
  {
    assert RequestSound(w, w.requests[step.r]);
  }

  lemma RequestStepKeepsSound(w: World, step: Step)
    requires Sound(w) && Enabled(w, step) && IsRequestStep(step)
    ensures Sound(Next(w, step)) && Grows(w, Next(w, step))
  {
    var v := Next(w, step);
    if step.Collect? {
      CollectedIsSound(w, step.r);
    } else if step.Resume? || step.Decide? {
      ResumedIsSound(w, step);
    } else {
      MovedRequestIsSound(w, step);
    }
    assert v == w.(requests := v.requests);
    ReadsMove(w, v);
    RequestStaysSound(w, v, v.requests[step.r]);
    OneRequestMoves(w, v, step.r);
    LoadsCarryOver(w, v);
  }

  lemma FileStepKeepsSound(w: World, step: Step)
    requires Sound(w) && Enabled(w, step) && (step.Stage? || step.Unlink?)
    ensures Sound(Next(w, step)) && Grows(w, Next(w, step))
  {
    var v := Next(w, step);
    assert FilesSound(v);
    forall t | 0 <= t < |v.past| ensures MovedOn(v, t) {
      assert MovedOn(w, t) && LibAt(v, t) == LibAt(w, t) && LibAt(v, t + 1) == LibAt(w, t + 1);
    }
    ServiceStays(w, v);
    LoadsStaySound(w, v);
    RequestsStaySound(w, v);
  }

  lemma StepKeepsSound(w: World, step: Step)
    requires Sound(w) && Enabled(w, step)
    ensures Sound(Next(w, step)) && Grows(w, Next(w, step))
  {
    match step
    case Command(s) => CommandKeepsSound(w, s);
    case StartOrJoin(r) => StartOrJoinKeepsSound(w, r);
    case LookAgain(_) => RenderStepKeepsSound(w, step);
    case Write(_, _) => RenderStepKeepsSound(w, step);
    case Finish(_) => RenderStepKeepsSound(w, step);
    case Fail(_) => RenderStepKeepsSound(w, step);
    case Stage(_, _) => FileStepKeepsSound(w, step);
    case Unlink(_) => FileStepKeepsSound(w, step);
    case Ask(_, _) => AskKeepsSound(w, step);
    case Recheck(_) => AskKeepsSound(w, step);
    case ReadRow(_) => ReadStepKeepsSound(w, step);
    case BreakRead(_) => ReadStepKeepsSound(w, step);
    case SettleRead(_) => ReadStepKeepsSound(w, step);
    case Prune(_) => ShrinkKeepsSound(w, Next(w, step));
    case Evict(_) => ShrinkKeepsSound(w, Next(w, step));
    case Purge(_) => ShrinkKeepsSound(w, Next(w, step));
    case _ => RequestStepKeepsSound(w, step);
  }

  // ---------- runs ----------

  ghost predicate IsRun(w: World, steps: seq<Step>)
    decreases |steps|
  {
    |steps| > 0 ==> Enabled(w, steps[0]) && IsRun(Next(w, steps[0]), steps[1..])
  }

  ghost function Final(w: World, steps: seq<Step>): World
    requires IsRun(w, steps)
    decreases |steps|
  {
    if |steps| == 0 then w else Final(Next(w, steps[0]), steps[1..])
  }

  ghost function Empty(campaigns: map<L.CampaignId, L.Campaign>): World {
    World(L.Library(campaigns, map[], map[]), map[], {}, {}, map[], map[], [], [], map[], Service(map[], map[], []), [])
  }

  lemma GrowsChains(a: World, b: World, c: World)
    requires Grows(a, b) && Grows(b, c)
    ensures Grows(a, c)
  {
    forall t | 0 <= t <= Now(a) ensures LibAt(c, t) == LibAt(a, t) {
      assert LibAt(b, t) == LibAt(a, t);
    }
    forall l | 0 <= l < |a.loads|
      ensures LoadGrows(a.loads[l], c.loads[l]) &&
        (a.loads[l].progress.Begun? && !c.loads[l].progress.Begun? ==> Now(a) <= c.loads[l].progress.at)
    {
      assert LoadGrows(a.loads[l], b.loads[l]) && LoadGrows(b.loads[l], c.loads[l]);
    }
  }

  lemma {:induction false} RunKeepsSound(w: World, steps: seq<Step>)
    requires Sound(w) && IsRun(w, steps)
    ensures Sound(Final(w, steps)) && Grows(w, Final(w, steps))
    decreases |steps|
  {
    if |steps| > 0 {
      StepKeepsSound(w, steps[0]);
      RunKeepsSound(Next(w, steps[0]), steps[1..]);
      GrowsChains(w, Next(w, steps[0]), Final(w, steps));
    }
  }

  ghost predicate Serves(w: World, i: nat) { i < |w.requests| && IsServed(w.requests[i]) }

  lemma SoundServes(w: World, i: nat)
    requires Sound(w) && Serves(w, i)
    ensures var q := w.requests[i];
      && Depicts(w, q.key, q.image) && q.key.scene in w.lib.scenes
      && Seen(w, q.key.scene, w.lib.scenes[q.key.scene])
  {
    var q := w.requests[i];
    assert RequestSound(w, q);
    assert q.key in w.history;
  }

  /**
   * Cache coherence. In every run a cached or served image is the composite of the background and fog its
   * image revision stands for; two images served for one revision are equal; and one served for the
   * revision a scene still has shows that scene's present background and fog.
   */
  lemma ServedImagesDepictTheirRevision(campaigns: map<L.CampaignId, L.Campaign>, steps: seq<Step>, i: nat, j: nat)
    requires IsRun(Empty(campaigns), steps)
    requires Serves(Final(Empty(campaigns), steps), i) && Serves(Final(Empty(campaigns), steps), j)
    ensures var w := Final(Empty(campaigns), steps); var a, b := w.requests[i], w.requests[j];
      && Depicts(w, a.key, a.image)
      && (a.key == b.key ==> a.image == b.image)
      && (a.key in w.service.cache ==> w.service.cache[a.key] == a.image)
      && a.key.scene in w.lib.scenes
      && (var s := w.lib.scenes[a.key.scene];
          s.imageRevision == a.key.imageRevision ==>
            s.background in w.born && a.image == Derivative(w.born[s.background], s.fog))
  {
    RunKeepsSound(Empty(campaigns), steps);
    SoundServes(Final(Empty(campaigns), steps), i);
    SoundServes(Final(Empty(campaigns), steps), j);
  }

  /** Renders of one key never overlap: the in-flight map and the live tasks correspond one to one, in every run. */
  lemma OneRenderPerKey(campaigns: map<L.CampaignId, L.Campaign>, steps: seq<Step>, a: nat, b: nat)
    requires IsRun(Empty(campaigns), steps)
    requires Final(Empty(campaigns), steps).service.Has(a) && Final(Empty(campaigns), steps).service.Has(b)
    ensures var s := Final(Empty(campaigns), steps).service;
      && s.tasks[a].key in s.renders && s.renders[s.tasks[a].key] == a
      && (s.tasks[a].key == s.tasks[b].key ==> a == b)
  {
    RunKeepsSound(Empty(campaigns), steps);
  }

  /** Image rows and their bytes: a row is there only while its bytes are, whatever fails in between. */
  lemma RowsHaveTheirBytes(campaigns: map<L.CampaignId, L.Campaign>, steps: seq<Step>, f: L.FileId)
    requires IsRun(Empty(campaigns), steps) && f in Final(Empty(campaigns), steps).lib.media
    ensures var w := Final(Empty(campaigns), steps); f in w.disk && |w.disk[f]| == w.lib.media[f].size
  {
    RunKeepsSound(Empty(campaigns), steps);
  }
}
