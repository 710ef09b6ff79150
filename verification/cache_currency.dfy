/** How old an image may be when it is served, and how the code comes to serve one that is out of date. */
module CacheCurrency {
  import opened Wrappers
  import opened Policy
  import opened DerivativeService
  import opened CacheRuns
  import FogMask
  import L = SceneLibrary

  /** Command number i, counted from the start, changed what the scene looks like. */
  ghost predicate PictureChanges(w: World, scene: L.SceneId, i: Time) {
    i < Now(w) && scene in LibAt(w, i).scenes && scene in LibAt(w, i + 1).scenes &&
    var a, b := LibAt(w, i).scenes[scene], LibAt(w, i + 1).scenes[scene];
    a.background != b.background || a.fog != b.fog
  }

  /** No command between the two moments changed it. */
  ghost predicate Unchanged(w: World, scene: L.SceneId, early: Time, late: Time) {
    forall i {:trigger PictureChanges(w, scene, i)} :: early <= i < late ==> !PictureChanges(w, scene, i)
  }

  ghost function ImageRevision(w: World, key: Key, t: Time): nat
    requires key.scene in LibAt(w, t).scenes
  {
    LibAt(w, t).scenes[key.scene].imageRevision
  }

  lemma OneMoment(w: World, key: Key, t: Time)
    requires PastSound(w) && t < Now(w) && key.scene in LibAt(w, t).scenes
    ensures key.scene in LibAt(w, t + 1).scenes
    ensures ImageRevision(w, key, t) <= ImageRevision(w, key, t + 1)
    ensures ImageRevision(w, key, t) == ImageRevision(w, key, t + 1) <==> !PictureChanges(w, key.scene, t)
  {
    assert MovedOn(w, t);
    assert L.Later(LibAt(w, t).scenes[key.scene], LibAt(w, t + 1).scenes[key.scene]);
  }

  lemma UnchangedSplits(w: World, scene: L.SceneId, early: Time, late: Time)
    requires early < late
    ensures Unchanged(w, scene, early, late) <==>
      Unchanged(w, scene, early, late - 1) && !PictureChanges(w, scene, late - 1)
  {
  }

  /** The image revision stands still exactly while no command changes the picture. */
  lemma {:induction false} StandsStillIffUnchanged(w: World, key: Key, early: Time, late: Time)
    requires PastSound(w) && early <= late <= Now(w) && key.scene in LibAt(w, early).scenes
    ensures key.scene in LibAt(w, late).scenes
    ensures ImageRevision(w, key, early) <= ImageRevision(w, key, late)
    ensures ImageRevision(w, key, early) == ImageRevision(w, key, late) <==> Unchanged(w, key.scene, early, late)
    decreases late
  {
    if early < late {
      StandsStillIffUnchanged(w, key, early, late - 1);
      OneMoment(w, key, late - 1);
      UnchangedSplits(w, key.scene, early, late);
    }
  }

  ghost predicate CurrentWithin(w: World, key: Key, early: Time, late: Time) {
    exists t :: early <= t <= late && CurrentAt(w, key, t)
  }

  /** Current at `read`, a picture is current somewhere in early..late exactly if nothing changed it before `early`. */
  lemma CurrentWithinIff(w: World, key: Key, read: Time, early: Time, late: Time)
    requires PastSound(w) && CurrentAt(w, key, read) && read <= late <= Now(w) && early <= late
    ensures CurrentWithin(w, key, early, late) <==> Unchanged(w, key.scene, read, early)
  {
    if read < early {
      StandsStillIffUnchanged(w, key, read, early);
      assert CurrentAt(w, key, early) <==> Unchanged(w, key.scene, read, early);
      forall t | early <= t <= late && CurrentAt(w, key, t) ensures Unchanged(w, key.scene, read, early) {
        StandsStillIffUnchanged(w, key, read, t);
        StandsStillIffUnchanged(w, key, early, t);
      }
    }
  }

  // ---------- what is promised of an image when it is served ----------

  /** Every served image is the composite of the scene row as it was when it was read, and that was before serving. */
  lemma ServedImagesDepictTheRowRead(campaigns: map<L.CampaignId, L.Campaign>, steps: seq<Step>, i: nat)
    requires IsRun(Empty(campaigns), steps)
    requires Serves(Final(Empty(campaigns), steps), i)
    ensures var w := Final(Empty(campaigns), steps); var q := w.requests[i];
      && q.read <= q.served && q.key.scene in LibAt(w, q.read).scenes
      && (var row := LibAt(w, q.read).scenes[q.key.scene];
          && row.imageRevision == q.key.imageRevision && row.background in w.born
          && q.image == Derivative(w.born[row.background], row.fog))
  {
    RunKeepsSound(Empty(campaigns), steps);
    var w := Final(Empty(campaigns), steps);
    var q := w.requests[i];
    assert RequestSound(w, q);
  }

  /**
   * A rendered image was still current at some moment after it was in hand exactly if no command changed the
   * picture between the reading of the row its recheck found and that moment. A recheck that does not join a
   * read already made always meets this.
   */
  lemma RenderedImagesStillCurrentIff(campaigns: map<L.CampaignId, L.Campaign>, steps: seq<Step>, i: nat)
    requires IsRun(Empty(campaigns), steps)
    requires i < |Final(Empty(campaigns), steps).requests| && Final(Empty(campaigns), steps).requests[i].ServedRender?
    ensures var w := Final(Empty(campaigns), steps); var q := w.requests[i];
      && q.inHand <= q.served
      && (CurrentWithin(w, q.key, q.inHand, q.served) <==> Unchanged(w, q.key.scene, q.read, q.inHand))
      && (!q.rejoined ==> CurrentWithin(w, q.key, q.inHand, q.served))
  {
    RunKeepsSound(Empty(campaigns), steps);
    var w := Final(Empty(campaigns), steps);
    var q := w.requests[i];
    assert RequestSound(w, q);
    CurrentWithinIff(w, q.key, q.read, q.inHand, q.served);
  }

  /**
   * A cached image is served without a recheck. It was current at some moment of the request exactly if no
   * command changed the picture between the read the request joined and its beginning, and it is current when
   * served exactly if none did between that read and the serving.
   */
  lemma CachedImagesStillCurrentIff(campaigns: map<L.CampaignId, L.Campaign>, steps: seq<Step>, i: nat)
    requires IsRun(Empty(campaigns), steps)
    requires i < |Final(Empty(campaigns), steps).requests| && Final(Empty(campaigns), steps).requests[i].ServedHit?
    ensures var w := Final(Empty(campaigns), steps); var q := w.requests[i];
      && q.began <= q.served
      && (CurrentWithin(w, q.key, q.began, q.served) <==> Unchanged(w, q.key.scene, q.read, q.began))
      && (CurrentAt(w, q.key, q.served) <==> Unchanged(w, q.key.scene, q.read, q.served))
  {
    RunKeepsSound(Empty(campaigns), steps);
    var w := Final(Empty(campaigns), steps);
    var q := w.requests[i];
    assert RequestSound(w, q);
    CurrentWithinIff(w, q.key, q.read, q.began, q.served);
    StandsStillIffUnchanged(w, q.key, q.read, q.served);
  }

  // ---------- runs that serve an image that is out of date ----------

  const OPEN := FogMask.FogOp(FogMask.Reveal, [FogMask.Run(0.5, 0.5, 0.5)])
  const SHUT := FogMask.FogOp(FogMask.Conceal, [FogMask.Run(0.5, 0.5, 0.5)])

  /** Who and what the runs below are about: any manager of any active campaign, any scene and any image. */
  datatype Cast = Cast(campaigns: map<L.CampaignId, L.Campaign>, campaign: L.CampaignId, actor: UserId,
    scene: L.SceneId,
    file: L.FileId, bytes: Bytes)

  ghost predicate Plays(x: Cast) { L.Manages(x.campaigns, x.campaign, x.actor) && |x.bytes| <= L.MAX_BYTES }

  function Shown(x: Cast): L.Scene { L.Scene(x.campaign, x.file, [OPEN], [], 2, 2) }

  function ShownKey(x: Cast): Key { Key(x.scene, 2) }

  function ShownImage(x: Cast): Derivative { Derivative(x.bytes, [OPEN]) }

  function Act(x: Cast, c: L.Command): Step { Command(L.Do(x.actor, c)) }

  ghost predicate Passes(worlds: seq<World>, steps: seq<Step>) {
    |worlds| == |steps| + 1 &&
    forall k {:trigger steps[k]} :: 0 <= k < |steps| ==>
      Enabled(worlds[k], steps[k]) && Next(worlds[k], steps[k]) == worlds[k + 1]
  }

  lemma {:induction false} PassingIsARun(worlds: seq<World>, steps: seq<Step>)
    requires Passes(worlds, steps)
    ensures IsRun(worlds[0], steps) && Final(worlds[0], steps) == worlds[|steps|]
    decreases |steps|
  {
    if |steps| > 0 {
      assert Enabled(worlds[0], steps[0]) && Next(worlds[0], steps[0]) == worlds[1];
      forall k | 0 <= k < |steps[1..]|
        ensures Enabled(worlds[1..][k], steps[1..][k]) && Next(worlds[1..][k], steps[1..][k]) == worlds[1..][k + 1]
      {
        assert steps[1..][k] == steps[k + 1];
      }
      PassingIsARun(worlds[1..], steps[1..]);
    }
  }

  lemma {:induction false} RunsJoin(w: World, first: seq<Step>, second: seq<Step>)
    requires IsRun(w, first) && IsRun(Final(w, first), second)
    ensures IsRun(w, first + second) && Final(w, first + second) == Final(Final(w, first), second)
    decreases |first|
  {
    if |first| == 0 {
      assert first + second == second;
    } else {
      assert (first + second)[0] == first[0] && (first + second)[1..] == first[1..] + second;
      RunsJoin(Next(w, first[0]), first[1..], second);
    }
  }

  /** The scene shows its revealed picture, and the image is on the disk. */
  ghost predicate Stands(w: World, x: Cast) {
    && w.lib.campaigns == x.campaigns && x.scene in w.lib.scenes && w.lib.scenes[x.scene] == Shown(x)
    && L.Owns(w.lib.media, x.campaign, x.file) && x.file in w.disk && w.disk[x.file] == x.bytes
  }

  ghost predicate Ready(w: World, x: Cast) {
    && Stands(w, x) && w.loads == [] && w.sceneLoads == map[]
    && w.service == Service(map[], map[], []) && w.requests == []
  }

  lemma UploadFits(x: Cast)
    requires Plays(x)
    ensures !L.QuotaFull(map[], x.campaign, |x.bytes|)
  {
    assert L.FilesOf(map[], x.campaign) == {};
  }

  /** A fresh world but for one stored image. */
  ghost predicate Stored(w: World, x: Cast) {
    && w.lib.campaigns == x.campaigns && w.lib.scenes == map[]
    && L.Owns(w.lib.media, x.campaign, x.file) && x.file in w.disk && w.disk[x.file] == x.bytes
    && w.loads == [] && w.sceneLoads == map[] && w.service == Service(map[], map[], []) && w.requests == []
  }

  lemma ImageIsStored(w: World, x: Cast) returns (steps: seq<Step>)
    requires Plays(x) && w == Empty(x.campaigns)
    ensures IsRun(w, steps) && Stored(Final(w, steps), x)
  {
    UploadFits(x);
    var upload := Act(x, L.UploadImage(x.file, x.campaign, |x.bytes|));
    var w1 := Next(w, Stage(x.file, x.bytes));
    var w2 := Next(w1, upload);
    steps := [Stage(x.file, x.bytes), upload];
    PassingIsARun([w, w1, w2], steps);
  }

  ghost predicate Veiled(w: World, x: Cast) {
    && w.lib.campaigns == x.campaigns && x.scene in w.lib.scenes
    && w.lib.scenes[x.scene] == L.NewScene(x.campaign, x.file)
    && L.Owns(w.lib.media, x.campaign, x.file) && x.file in w.disk && w.disk[x.file] == x.bytes
    && w.loads == [] && w.sceneLoads == map[] && w.service == Service(map[], map[], []) && w.requests == []
  }

  lemma SceneIsMade(w: World, x: Cast) returns (steps: seq<Step>)
    requires Plays(x) && Stored(w, x)
    ensures IsRun(w, steps) && Veiled(Final(w, steps), x)
  {
    var create := Act(x, L.CreateScene(x.scene, x.campaign, x.file));
    var w1 := Next(w, create);
    steps := [create];
    PassingIsARun([w, w1], steps);
  }

  lemma SceneIsRevealed(w: World, x: Cast) returns (steps: seq<Step>)
    requires Plays(x) && Veiled(w, x)
    ensures IsRun(w, steps) && Ready(Final(w, steps), x)
  {
    var uncover := Act(x, L.FogEdit(x.scene, 1, OPEN));
    var w1 := Next(w, uncover);
    steps := [uncover];
    PassingIsARun([w, w1], steps);
  }

  ghost predicate OneRequest(w: World, q: Request) { |w.loads| == 1 && w.sceneLoads == map[] && w.requests == [q] }

  ghost predicate OneReads(w: World, x: Cast) {
    && Stands(w, x) && w.service == Service(map[], map[], [])
    && OneRequest(w, Resolving(x.scene, 2, 0, Now(w))) && IsOver(w, 0)
    && w.loads[0].progress.found == Some(Shown(x))
  }

  lemma OneAsks(w: World, x: Cast) returns (steps: seq<Step>)
    requires Ready(w, x)
    ensures IsRun(w, steps) && OneReads(Final(w, steps), x)
  {
    var w1 := Next(w, Ask(x.scene, 2));
    var w2 := Next(w1, ReadRow(0));
    var w3 := Next(w2, SettleRead(0));
    steps := [Ask(x.scene, 2), ReadRow(0), SettleRead(0)];
    PassingIsARun([w, w1, w2, w3], steps);
  }

  /** No image in the cache: the first request is about to render. */
  ghost predicate OneMisses(w: World, x: Cast) {
    && Stands(w, x) && w.service == Service(map[], map[], []) && OneRequest(w, Missed(ShownKey(x), Shown(x)))
  }

  ghost predicate OneChecks(w: World, x: Cast) {
    && Stands(w, x) && w.service == Service(map[], map[], []) && |w.requests| == 1 && w.requests[0].Checked?
    && OneRequest(w, Checked(ShownKey(x), Shown(x), w.requests[0].read, w.requests[0].began))
  }

  lemma OneResolves(w: World, x: Cast) returns (steps: seq<Step>)
    requires OneReads(w, x)
    ensures IsRun(w, steps) && OneChecks(Final(w, steps), x)
  {
    var w1 := Next(w, Resume(0));
    var w2 := Next(w1, CheckMedia(0));
    steps := [Resume(0), CheckMedia(0)];
    PassingIsARun([w, w1, w2], steps);
  }

  lemma OneMissesTheCache(w: World, x: Cast) returns (steps: seq<Step>)
    requires OneChecks(w, x)
    ensures IsRun(w, steps) && OneMisses(Final(w, steps), x)
  {
    var w1 := Next(w, ReadCache(0));
    steps := [ReadCache(0)];
    PassingIsARun([w, w1], steps);
  }

  ghost predicate OneAwaits(w: World, x: Cast) {
    && Stands(w, x) && OneRequest(w, AwaitingRender(ShownKey(x), 0))
    && w.service == Service(map[], map[ShownKey(x) := 0], [Task(ShownKey(x), ShownImage(x), Started)])
  }

  lemma OneStarts(w: World, x: Cast) returns (steps: seq<Step>)
    requires OneMisses(w, x)
    ensures IsRun(w, steps) && OneAwaits(Final(w, steps), x)
  {
    var w1 := Next(w, ReadBytes(0));
    var w2 := Next(w1, StartOrJoin(0));
    steps := [ReadBytes(0), StartOrJoin(0)];
    PassingIsARun([w, w1, w2], steps);
  }

  /** The first request's render is written and waits to be collected. */
  ghost predicate Written(w: World, x: Cast) {
    w.service == Service(map[ShownKey(x) := ShownImage(x)], map[ShownKey(x) := 0],
      [Task(ShownKey(x), ShownImage(x), Phase.Written)])
  }

  ghost predicate OneRendered(w: World, x: Cast) {
    Stands(w, x) && OneRequest(w, AwaitingRender(ShownKey(x), 0)) && Written(w, x)
  }

  lemma OneRenders(w: World, x: Cast) returns (steps: seq<Step>)
    requires OneAwaits(w, x)
    ensures IsRun(w, steps) && OneRendered(Final(w, steps), x)
  {
    var w1 := Next(w, LookAgain(0));
    var w2 := Next(w1, Write(0, true));
    steps := [LookAgain(0), Write(0, true)];
    PassingIsARun([w, w1, w2], steps);
  }

  /** A second request's row has been read, and since then the scene has been concealed. */
  ghost predicate Overtaken(w: World, x: Cast) {
    && |w.past| > 0 && x.scene in w.lib.scenes && w.lib.scenes[x.scene] == L.Fogged(Shown(x), SHUT)
    && L.Owns(w.lib.media, x.campaign, x.file)
    && |w.loads| == 2 && w.loads[1] == Load(x.scene, HasRead(Some(Shown(x)), |w.past| - 1))
    && w.sceneLoads == map[x.scene := 1] && Written(w, x)
    && w.requests == [AwaitingRender(ShownKey(x), 0), Resolving(x.scene, 2, 1, |w.past| - 1)]
  }

  ghost predicate SecondReads(w: World, x: Cast) {
    && Stands(w, x) && Written(w, x) && w.sceneLoads == map[x.scene := 1]
    && |w.loads| == 2 && w.loads[1] == Load(x.scene, HasRead(Some(Shown(x)), |w.past|))
    && w.requests == [AwaitingRender(ShownKey(x), 0), Resolving(x.scene, 2, 1, |w.past|)]
  }

  lemma SecondAsks(w: World, x: Cast) returns (steps: seq<Step>)
    requires OneRendered(w, x)
    ensures IsRun(w, steps) && SecondReads(Final(w, steps), x)
  {
    var w1 := Next(w, Ask(x.scene, 2));
    var w2 := Next(w1, ReadRow(1));
    steps := [Ask(x.scene, 2), ReadRow(1)];
    PassingIsARun([w, w1, w2], steps);
  }

  lemma TheSceneIsConcealed(w: World, x: Cast) returns (steps: seq<Step>)
    requires Plays(x) && SecondReads(w, x)
    ensures IsRun(w, steps) && Overtaken(Final(w, steps), x)
  {
    var conceal := Act(x, L.FogEdit(x.scene, 2, SHUT));
    var w1 := Next(w, conceal);
    steps := [conceal];
    PassingIsARun([w, w1], steps);
  }

  lemma FirstMisses(x: Cast) returns (steps: seq<Step>)
    requires Plays(x)
    ensures IsRun(Empty(x.campaigns), steps) && OneMisses(Final(Empty(x.campaigns), steps), x)
  {
    var start := Empty(x.campaigns);
    steps := ImageIsStored(start, x);
    var next := SceneIsMade(Final(start, steps), x);
    RunsJoin(start, steps, next);
    steps := steps + next;
    next := SceneIsRevealed(Final(start, steps), x);
    RunsJoin(start, steps, next);
    steps := steps + next;
    next := OneAsks(Final(start, steps), x);
    RunsJoin(start, steps, next);
    steps := steps + next;
    next := OneResolves(Final(start, steps), x);
    RunsJoin(start, steps, next);
    steps := steps + next;
    next := OneMissesTheCache(Final(start, steps), x);
    RunsJoin(start, steps, next);
    steps := steps + next;
  }

  lemma ReachesOvertaken(x: Cast) returns (steps: seq<Step>)
    requires Plays(x)
    ensures IsRun(Empty(x.campaigns), steps) && Overtaken(Final(Empty(x.campaigns), steps), x)
  {
    var start := Empty(x.campaigns);
    steps := FirstMisses(x);
    var next := OneStarts(Final(start, steps), x);
    RunsJoin(start, steps, next);
    steps := steps + next;
    next := OneRenders(Final(start, steps), x);
    RunsJoin(start, steps, next);
    steps := steps + next;
    next := SecondAsks(Final(start, steps), x);
    RunsJoin(start, steps, next);
    steps := steps + next;
    next := TheSceneIsConcealed(Final(start, steps), x);
    RunsJoin(start, steps, next);
    steps := steps + next;
  }

  /** The scene is concealed, and `q` was served the picture from before. */
  ghost predicate ServedTheOldPicture(w: World, x: Cast, q: Request) {
    && x.scene in w.lib.scenes && w.lib.scenes[x.scene].fog == [OPEN, SHUT]
    && IsServed(q) && q.key == ShownKey(x) && q.image == ShownImage(x) && !CurrentAt(w, q.key, q.served)
  }

  ghost predicate HitOutlived(w: World, x: Cast) {
    && |w.requests| > 1 && w.requests[1].ServedHit? && ServedTheOldPicture(w, x, w.requests[1])
    && w.requests[1].began <= w.requests[1].read
  }

  /** What is true once the second request's read is over. */
  ghost predicate Concealed(w: World, x: Cast) {
    && |w.past| > 0 && x.scene in w.lib.scenes && w.lib.scenes[x.scene] == L.Fogged(Shown(x), SHUT)
    && |w.loads| == 2 && w.loads[1] == Load(x.scene, Over(Some(Shown(x)), |w.past| - 1))
  }

  ghost predicate HitResolves(w: World, x: Cast, r: nat, began: Time) {
    Concealed(w, x) && L.Owns(w.lib.media, x.campaign, x.file) && Written(w, x) && r + 1 == |w.requests| &&
      w.requests[r] == Resolving(x.scene, 2, 1, began)
  }

  ghost predicate HitServed(w: World, x: Cast, r: nat, began: Time) {
    Concealed(w, x) && r + 1 == |w.requests| &&
    w.requests[r] == ServedHit(ShownKey(x), ShownImage(x), |w.past| - 1, |w.past|, began)
  }

  lemma HitIsServed(w: World, x: Cast, r: nat, began: Time) returns (steps: seq<Step>)
    requires HitResolves(w, x, r, began)
    ensures IsRun(w, steps) && HitServed(Final(w, steps), x, r, began) && |Final(w, steps).past| == |w.past|
  {
    var w1 := Next(w, Resume(r));
    var w2 := Next(w1, CheckMedia(r));
    var w3 := Next(w2, ReadCache(r));
    steps := [Resume(r), CheckMedia(r), ReadCache(r)];
    PassingIsARun([w, w1, w2, w3], steps);
  }

  lemma SecondReadEnds(w: World, x: Cast) returns (steps: seq<Step>)
    requires Overtaken(w, x)
    ensures IsRun(w, steps) && |Final(w, steps).past| > 0
    ensures HitResolves(Final(w, steps), x, 1, |Final(w, steps).past| - 1)
  {
    var w1 := Next(w, SettleRead(1));
    steps := [SettleRead(1)];
    PassingIsARun([w, w1], steps);
  }

  lemma HitIsLate(w: World, x: Cast)
    requires |w.past| > 0
    ensures HitServed(w, x, 1, |w.past| - 1) ==> HitOutlived(w, x)
    ensures HitServed(w, x, 2, |w.past|) ==> HitPredates(w, x)
  {
  }

  /** First: a cache hit outlives the conceal, although its row was read within the request. */
  lemma AHitOutlivesAConceal(x: Cast)
    requires Plays(x)
    ensures exists steps :: IsRun(Empty(x.campaigns), steps) && HitOutlived(Final(Empty(x.campaigns), steps), x)
  {
    var first := ReachesOvertaken(x);
    var second := SecondReadEnds(Final(Empty(x.campaigns), first), x);
    RunsJoin(Empty(x.campaigns), first, second);
    var w := Final(Empty(x.campaigns), first + second);
    var third := HitIsServed(w, x, 1, |w.past| - 1);
    RunsJoin(Empty(x.campaigns), first + second, third);
    HitIsLate(Final(w, third), x);
  }

  /** Not current at any moment of the request. */
  ghost predicate HitPredates(w: World, x: Cast) {
    && |w.requests| > 2 && w.requests[2].ServedHit? && ServedTheOldPicture(w, x, w.requests[2])
    && !CurrentWithin(w, w.requests[2].key, w.requests[2].began, w.requests[2].served)
  }

  lemma LateRequestAsks(w: World, x: Cast) returns (steps: seq<Step>)
    requires Overtaken(w, x)
    ensures IsRun(w, steps) && HitResolves(Final(w, steps), x, 2, |Final(w, steps).past|)
  {
    var w1 := Next(w, Ask(x.scene, 2));
    var w2 := Next(w1, SettleRead(1));
    steps := [Ask(x.scene, 2), SettleRead(1)];
    PassingIsARun([w, w1, w2], steps);
  }

  /** Second: a request begun after the conceal joins the read from before it. */
  lemma AHitPredatesItsRequest(x: Cast)
    requires Plays(x)
    ensures exists steps :: IsRun(Empty(x.campaigns), steps) && HitPredates(Final(Empty(x.campaigns), steps), x)
  {
    var first := ReachesOvertaken(x);
    var second := LateRequestAsks(Final(Empty(x.campaigns), first), x);
    RunsJoin(Empty(x.campaigns), first, second);
    var w := Final(Empty(x.campaigns), first + second);
    var third := HitIsServed(w, x, 2, |w.past|);
    RunsJoin(Empty(x.campaigns), first + second, third);
    HitIsLate(Final(w, third), x);
  }

  /** Not current at any moment since the image was in hand. */
  ghost predicate RecheckFooled(w: World, x: Cast) {
    && |w.requests| > 0 && w.requests[0].ServedRender? && ServedTheOldPicture(w, x, w.requests[0])
    && !CurrentWithin(w, w.requests[0].key, w.requests[0].inHand, w.requests[0].served)
  }

  ghost predicate Rejoins(w: World, x: Cast) {
    && |w.past| > 0 && x.scene in w.lib.scenes && w.lib.scenes[x.scene] == L.Fogged(Shown(x), SHUT)
    && |w.loads| == 2 && w.loads[1] == Load(x.scene, HasRead(Some(Shown(x)), |w.past| - 1)) && |w.requests| == 2
    && w.requests[0] == Rechecking(ShownKey(x), ShownImage(x), |w.past|, 1, true)
  }

  ghost predicate Collectable(w: World, x: Cast) {
    && |w.past| > 0 && x.scene in w.lib.scenes && w.lib.scenes[x.scene] == L.Fogged(Shown(x), SHUT)
    && |w.loads| == 2 && w.loads[1] == Load(x.scene, HasRead(Some(Shown(x)), |w.past| - 1))
    && w.sceneLoads == map[x.scene := 1] && |w.requests| == 2 && w.requests[0] == AwaitingRender(ShownKey(x), 0)
    && |w.service.tasks| == 1 && w.service.tasks[0].phase == Settled(Some(ShownImage(x)))
  }

  lemma RenderFinishes(w: World, x: Cast) returns (steps: seq<Step>)
    requires Overtaken(w, x)
    ensures IsRun(w, steps) && Collectable(Final(w, steps), x)
  {
    var w1 := Next(w, Finish(0));
    steps := [Finish(0)];
    PassingIsARun([w, w1], steps);
  }

  lemma RecheckJoins(w: World, x: Cast) returns (steps: seq<Step>)
    requires Collectable(w, x)
    ensures IsRun(w, steps) && Rejoins(Final(w, steps), x)
  {
    var w1 := Next(w, Collect(0));
    var w2 := Next(w1, Recheck(0));
    steps := [Collect(0), Recheck(0)];
    PassingIsARun([w, w1, w2], steps);
  }

  ghost predicate RenderServed(w: World, x: Cast) {
    Concealed(w, x) && |w.requests| == 2 &&
    w.requests[0] == ServedRender(ShownKey(x), ShownImage(x), |w.past| - 1, |w.past|, |w.past|, true)
  }

  lemma RecheckPasses(w: World, x: Cast) returns (steps: seq<Step>)
    requires Rejoins(w, x)
    ensures IsRun(w, steps) && RenderServed(Final(w, steps), x)
  {
    var w1 := Next(w, SettleRead(1));
    var w2 := Next(w1, Decide(0));
    steps := [SettleRead(1), Decide(0)];
    PassingIsARun([w, w1, w2], steps);
  }

  lemma RenderIsLate(w: World, x: Cast)
    requires RenderServed(w, x)
    ensures RecheckFooled(w, x)
  {
  }

  /** Third: the recheck after a render joins a read from before the conceal and lets the old picture through. */
  lemma ARecheckJoinsAnOldRead(x: Cast)
    requires Plays(x)
    ensures exists steps :: IsRun(Empty(x.campaigns), steps) && RecheckFooled(Final(Empty(x.campaigns), steps), x)
  {
    var start := Empty(x.campaigns);
    var steps := ReachesOvertaken(x);
    var next := RenderFinishes(Final(start, steps), x);
    RunsJoin(start, steps, next);
    steps := steps + next;
    next := RecheckJoins(Final(start, steps), x);
    RunsJoin(start, steps, next);
    steps := steps + next;
    next := RecheckPasses(Final(start, steps), x);
    RunsJoin(start, steps, next);
    RenderIsLate(Final(start, steps + next), x);
  }
}
