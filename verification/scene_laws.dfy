/** What scene commands mean to the people at the table: who may do what, what is left behind, what stays dark. */
module SceneLaws {
  import opened Wrappers
  import opened Policy
  import opened SceneLibrary
  import FogMask

  // ---------- who may do what ----------

  /** An active owner or co-GM of an active campaign. */
  predicate Runs(lib: Library, c: CampaignId, actor: UserId) {
    c in lib.campaigns && lib.campaigns[c].active && actor in lib.campaigns[c].members &&
    var m := lib.campaigns[c].members[actor];
    m.status == Active && (m.role == Owner || m.role == CoGm)
  }

  predicate HasImage(lib: Library, c: CampaignId, f: FileId) { f in lib.media && lib.media[f].campaign == c }

  predicate OnScene(s: Scene, f: FileId) { s.background == f || exists t :: t in s.tokens && t.image == Some(f) }

  predicate InUse(lib: Library, f: FileId) { exists s :: s in lib.scenes && OnScene(lib.scenes[s], f) }

  predicate Scribble(op: FogMask.FogOp) {
    |op.runs| == 0 || |op.runs| > 512 ||
    exists run :: run in op.runs && (run.x < 0.0 || run.x > 1.0 || run.y < 0.0 || run.y > 1.0 || run.r <= 0.0)
  }

  /** The actor runs the campaign the command is about, and what it works on is there. */
  ghost predicate InReach(lib: Library, actor: UserId, c: Command) {
    match c
    case CreateScene(_, campaign, background) => Runs(lib, campaign, actor) && HasImage(lib, campaign, background)
    case UploadImage(_, campaign, _) => Runs(lib, campaign, actor)
    case DeleteImage(file, _) => file in lib.media && Runs(lib, lib.media[file].campaign, actor)
    case _ => c.scene in lib.scenes && Runs(lib, lib.scenes[c.scene].campaign, actor)
  }

  /** It was sent against the revision the row has now. */
  ghost predicate UpToDate(lib: Library, actor: UserId, c: Command)
    requires InReach(lib, actor, c)
  {
    match c
    case CreateScene(_, _, _) => true
    case UploadImage(_, _, _) => true
    case DeleteImage(file, expected) => lib.media[file].revision == expected
    case _ => lib.scenes[c.scene].revision == c.expected
  }

  /** The images and tokens it names are there. */
  ghost predicate Resolves(lib: Library, actor: UserId, c: Command)
    requires InReach(lib, actor, c)
  {
    match c
    case UpdateScene(s, _, background) => HasImage(lib, lib.scenes[s].campaign, background)
    case PlaceToken(s, _, token) => token.image.Some? ==> HasImage(lib, lib.scenes[s].campaign, token.image.value)
    case MoveToken(s, _, id, _, _) => exists t :: t in lib.scenes[s].tokens && t.id == id
    case RemoveToken(s, _, id) => exists t :: t in lib.scenes[s].tokens && t.id == id
    case _ => true
  }

  ghost predicate HasRoom(lib: Library, c: Command) {
    c.UploadImage? ==> |FilesOf(lib.media, c.campaign)| < 256 && BytesOf(lib.media, c.campaign) + c.size <= 104857600
  }

  lemma SameTokenTest(tokens: seq<Token>, id: TokenId)
    ensures HasToken(tokens, id) <==> exists t :: t in tokens && t.id == id
  {
    if i :| 0 <= i < |tokens| && tokens[i].id == id {
      assert tokens[i] in tokens;
    }
  }

  lemma SameOpTest(op: FogMask.FogOp)
    ensures FogMask.AdmittedOp(op) <==> !Scribble(op)
  {
  }

  lemma SameUse(lib: Library, f: FileId)
    ensures Referenced(lib.scenes, f) <==> InUse(lib, f)
  {
    forall s | s in lib.scenes ensures References(lib.scenes[s], f) <==> OnScene(lib.scenes[s], f) {
      if i :| 0 <= i < |lib.scenes[s].tokens| && lib.scenes[s].tokens[i].image == Some(f) {
        assert lib.scenes[s].tokens[i] in lib.scenes[s].tokens;
      }
    }
  }

  ghost predicate Malformed(c: Command) { c.FogEdit? && Scribble(c.op) }

  ghost predicate Blocked(lib: Library, c: Command) { c.DeleteImage? && InUse(lib, c.file) }

  /** Which refusal a command meets, and that it meets none. */
  ghost predicate RuledRightly(lib: Library, actor: UserId, c: Command, v: Outcome) {
    && (v == BadRequest <==> Malformed(c))
    && (v == NotFound <==>
         !Malformed(c) && (InReach(lib, actor, c) ==> UpToDate(lib, actor, c) && !Resolves(lib, actor, c)))
    && (v == Conflict <==> !Malformed(c) && InReach(lib, actor, c) && (!UpToDate(lib, actor, c) || Blocked(lib, c)))
    && (v == TooLarge <==> InReach(lib, actor, c) && !HasRoom(lib, c))
    && (v == Done <==>
         !Malformed(c) && InReach(lib, actor, c) && UpToDate(lib, actor, c) && Resolves(lib, actor, c) &&
         !Blocked(lib, c) && HasRoom(lib, c))
  }

  /** For every command the outcome is what the actor's standing, the revision, the names and the quota make it. */
  lemma OutcomesAreRight(lib: Library, actor: UserId, c: Command)
    ensures RuledRightly(lib, actor, c, Verdict(lib, actor, c))
  {
    match c
    case FogEdit(_, _, op) => SameOpTest(op);
    case MoveToken(scene, _, id, _, _) =>
      if scene in lib.scenes {
        SameTokenTest(lib.scenes[scene].tokens, id);
      }
    case RemoveToken(scene, _, id) =>
      if scene in lib.scenes {
        SameTokenTest(lib.scenes[scene].tokens, id);
      }
    case DeleteImage(file, _) => SameUse(lib, file);
    case _ =>
  }

  // ---------- what is left behind ----------

  predicate SamePicture(a: Scene, b: Scene) {
    b.background == a.background && b.fog == a.fog && b.imageRevision == a.imageRevision
  }

  predicate Extends<T(==)>(a: seq<T>, b: seq<T>, last: T) {
    |b| == |a| + 1 && b[..|a|] == a && b[|a|] == last
  }

  predicate Repositioned(a: Token, b: Token, x: real, y: real) {
    b.id == a.id && b.tag == a.tag && b.size == a.size && b.visible == a.visible && b.image == a.image &&
    b.x == x && b.y == y
  }

  predicate Shifted(a: seq<Token>, b: seq<Token>, id: TokenId, x: real, y: real) {
    |b| == |a| &&
    forall i :: 0 <= i < |a| ==> if a[i].id == id then Repositioned(a[i], b[i], x, y) else b[i] == a[i]
  }

  /** Reading both from the front, `b` misses the tokens `id` of `a`, has every other one, and no more. */
  predicate Kept(a: seq<Token>, b: seq<Token>, id: TokenId)
    decreases |a|
  {
    if |a| == 0 then |b| == 0
    else if a[0].id == id then Kept(a[1..], b, id)
    else |b| > 0 && b[0] == a[0] && Kept(a[1..], b[1..], id)
  }

  lemma {:induction false} WithoutKeepsTheRest(tokens: seq<Token>, id: TokenId)
    ensures Kept(tokens, Without(tokens, id), id)
  {
    if |tokens| > 0 {
      WithoutKeepsTheRest(tokens[1..], id);
      assert tokens[0].id != id ==> Without(tokens, id)[1..] == Without(tokens[1..], id);
    }
  }

  /** Row `b` is row `a` after the edit, field by field. */
  ghost predicate Leaves(a: Scene, c: Command, b: Scene)
    requires EditsScene(c)
  {
    && b.campaign == a.campaign && b.revision == a.revision + 1
    && match c
       case UpdateScene(_, _, background) =>
         if background == a.background then SamePicture(a, b) && b.tokens == a.tokens
         else b.background == background && |b.fog| == 0 && |b.tokens| == 0 && b.imageRevision == a.imageRevision + 1
       case FogEdit(_, _, op) =>
         b.background == a.background && b.tokens == a.tokens && Extends(a.fog, b.fog, op) &&
         b.imageRevision == a.imageRevision + 1
       case PlaceToken(_, _, token) => SamePicture(a, b) && Extends(a.tokens, b.tokens, token)
       case MoveToken(_, _, id, x, y) => SamePicture(a, b) && Shifted(a.tokens, b.tokens, id, x, y)
       case RemoveToken(_, _, id) => SamePicture(a, b) && Kept(a.tokens, b.tokens, id)
  }

  lemma EditLeaves(lib: Library, actor: UserId, c: Command)
    requires EditsScene(c) && Verdict(lib, actor, c).Done?
    ensures c.scene in lib.scenes && c.scene in After(lib, actor, c).scenes
    ensures Leaves(lib.scenes[c.scene], c, After(lib, actor, c).scenes[c.scene])
  {
    if c.RemoveToken? {
      WithoutKeepsTheRest(lib.scenes[c.scene].tokens, c.tokenId);
    }
  }

  predicate Fresh(s: Scene, campaign: CampaignId, background: FileId) {
    && s.campaign == campaign && s.background == background && s.revision == 1 && s.imageRevision == 1
    && |s.fog| == 0 && |s.tokens| == 0
  }

  /** All rows but the one a command is about. */
  predicate SameBut<K, V(==)>(a: map<K, V>, b: map<K, V>, k: K) {
    && (forall i :: i in a && i != k ==> i in b)
    && (forall i :: i in b && i != k ==> i in a && b[i] == a[i])
  }

  /** Row by row, what any command leaves: nothing at all if refused, and nothing but its own row if not. */
  lemma CommandLeaves(lib: Library, actor: UserId, c: Command)
    ensures var after := After(lib, actor, c);
      if !Verdict(lib, actor, c).Done? then after == lib else
      after.campaigns == lib.campaigns &&
      match c
      case CreateScene(s, campaign, background) =>
        after.media == lib.media && SameBut(lib.scenes, after.scenes, s) && s in after.scenes &&
        Fresh(after.scenes[s], campaign, background)
      case UploadImage(f, campaign, size) =>
        after.scenes == lib.scenes && SameBut(lib.media, after.media, f) && f in after.media &&
        after.media[f].campaign == campaign && after.media[f].size == size && after.media[f].revision == 1
      case DeleteImage(f, _) =>
        after.scenes == lib.scenes && SameBut(lib.media, after.media, f) && f !in after.media
      case _ =>
        after.media == lib.media && SameBut(lib.scenes, after.scenes, c.scene) &&
        c.scene in lib.scenes && c.scene in after.scenes && Leaves(lib.scenes[c.scene], c, after.scenes[c.scene])
  {
    if Verdict(lib, actor, c).Done? && EditsScene(c) {
      EditLeaves(lib, actor, c);
    }
  }

  // ---------- a new map starts dark, and only fog edits light it ----------

  ghost predicate Dark(fog: seq<FogMask.FogOp>) { forall x, y :: !FogMask.Revealed(fog, x, y) }

  /** The rendered picture is opaque black at every pixel. */
  ghost predicate Black(out: seq<int>, width: nat, height: nat) {
    forall px, py {:trigger FogMask.InRaster(width, height, px, py)} :: FogMask.InRaster(width, height, px, py) ==>
      0 <= 4 * (py * width + px) && 4 * (py * width + px) + 4 <= |out| &&
      out[4 * (py * width + px)..4 * (py * width + px) + 4] == [0, 0, 0, 255]
  }

  lemma UnfoggedIsBlack(out: seq<int>, data: seq<int>, width: nat, height: nat)
    requires |data| >= width * height * 4 && FogMask.IsDerivative(out, data, width, height, [])
    ensures |out| == |data| && Black(out, width, height) &&
      out[width * height * 4..] == data[width * height * 4..]
  {
    FogMask.TailStays(out, data, width, height, []);
    forall px, py | FogMask.InRaster(width, height, px, py)
      ensures 0 <= 4 * (py * width + px) && 4 * (py * width + px) + 4 <= |out|
      ensures out[4 * (py * width + px)..4 * (py * width + px) + 4] == [0, 0, 0, 255]
    {
      FogMask.DerivativePixel(out, data, width, height, [], px, py);
    }
  }

  /**
   * Whatever was revealed of the old map: right after a scene gets another background no point of it is revealed, every
   * picture rendered of it is black up to its last pixel, and no token is left on it.
   */
  lemma NewBackgroundStartsDark(lib: Library, actor: UserId, c: Command, decoded: seq<int>, out: seq<int>, width: nat,
      height: nat)
    requires c.UpdateScene? && Verdict(lib, actor, c).Done? && c.background != lib.scenes[c.scene].background
    ensures var s := After(lib, actor, c).scenes[c.scene];
      && s.background == c.background && s.tokens == [] && Dark(s.fog)
      && (|decoded| >= width * height * 4 && FogMask.IsDerivative(out, decoded, width, height, s.fog) ==>
           |out| == |decoded| && Black(out, width, height))
  {
    EditLeaves(lib, actor, c);
    var fog := After(lib, actor, c).scenes[c.scene].fog;
    assert fog == [];
    if |decoded| >= width * height * 4 && FogMask.IsDerivative(out, decoded, width, height, fog) {
      UnfoggedIsBlack(out, decoded, width, height);
    }
  }

  /** What a step adds to, or strikes from, the tale of scene `s`. */
  ghost function Told(lib: Library, step: Step, s: SceneId, tale: seq<FogMask.FogOp>): seq<FogMask.FogOp> {
    if step.Govern? || !Verdict(lib, step.actor, step.command).Done? then tale else
    match step.command
    case CreateScene(k, _, _) => if k == s then [] else tale
    case UpdateScene(k, _, background) => if k == s && background != lib.scenes[k].background then [] else tale
    case FogEdit(k, _, op) => if k == s then tale + [op] else tale
    case _ => tale
  }

  /** The ops of the fog edits of scene `s` that committed since its background last changed, in commit order. */
  ghost function FogTale(lib: Library, steps: seq<Step>, s: SceneId, tale: seq<FogMask.FogOp>): seq<FogMask.FogOp>
    decreases |steps|
  {
    if |steps| == 0 then tale else FogTale(Next(lib, steps[0]), steps[1..], s, Told(lib, steps[0], s, tale))
  }

  lemma StepTells(lib: Library, step: Step, s: SceneId, tale: seq<FogMask.FogOp>)
    requires Enabled(lib, step) && (s in lib.scenes ==> lib.scenes[s].fog == tale)
    ensures s in Next(lib, step).scenes ==> Next(lib, step).scenes[s].fog == Told(lib, step, s, tale)
  {
    if step.Do? {
      CommandLeaves(lib, step.actor, step.command);
    }
  }

  lemma {:induction false} RunTells(lib: Library, steps: seq<Step>, s: SceneId, tale: seq<FogMask.FogOp>)
    requires IsRun(lib, steps) && (s in lib.scenes ==> lib.scenes[s].fog == tale)
    ensures s in Final(lib, steps).scenes ==> Final(lib, steps).scenes[s].fog == FogTale(lib, steps, s, tale)
    decreases |steps|
  {
    if |steps| > 0 {
      StepTells(lib, steps[0], s, tale);
      RunTells(Next(lib, steps[0]), steps[1..], s, Told(lib, steps[0], s, tale));
    }
  }

  /** In every run: what is revealed of a map was revealed by edits committed on that map, in their order. */
  lemma FogIsItsTale(campaigns: map<CampaignId, Campaign>, steps: seq<Step>, s: SceneId, x: real, y: real)
    requires IsRun(Library(campaigns, map[], map[]), steps)
    requires s in Final(Library(campaigns, map[], map[]), steps).scenes
    ensures var fog := Final(Library(campaigns, map[], map[]), steps).scenes[s].fog;
      var tale := FogTale(Library(campaigns, map[], map[]), steps, s, []);
      fog == tale && (FogMask.Revealed(fog, x, y) ==> exists i :: 0 <= i < |tale| && tale[i].mode == FogMask.Reveal)
  {
    RunTells(Library(campaigns, map[], map[]), steps, s, []);
    var fog := Final(Library(campaigns, map[], map[]), steps).scenes[s].fog;
    if FogMask.Revealed(fog, x, y) {
      LitByAReveal(fog, x, y);
    }
  }

  lemma {:induction false} LitByAReveal(fog: seq<FogMask.FogOp>, x: real, y: real)
    requires FogMask.Revealed(fog, x, y)
    ensures exists i :: 0 <= i < |fog| && fog[i].mode == FogMask.Reveal
    decreases |fog|
  {
    var last := |fog| - 1;
    if fog[last].mode != FogMask.Reveal {
      LitByAReveal(fog[..last], x, y);
      var i :| 0 <= i < |fog[..last]| && fog[..last][i].mode == FogMask.Reveal;
      assert fog[i].mode == FogMask.Reveal;
    }
  }

  // ---------- only those who run a campaign change its scenes and images ----------

  /** Row `k` is not in `b` what it was in `a`. */
  predicate Changes<K, V(==)>(a: map<K, V>, b: map<K, V>, k: K) {
    (k in a) != (k in b) || (k in a && k in b && a[k] != b[k])
  }

  lemma ChangesAreTheManagers(lib: Library, step: Step, s: SceneId, f: FileId)
    requires Enabled(lib, step)
    ensures Changes(lib.scenes, Next(lib, step).scenes, s) ==>
      step.Do? && s in Next(lib, step).scenes && Runs(lib, Next(lib, step).scenes[s].campaign, step.actor)
    ensures Changes(lib.media, Next(lib, step).media, f) ==>
      step.Do? && (if f in lib.media then Runs(lib, lib.media[f].campaign, step.actor)
                   else Runs(lib, Next(lib, step).media[f].campaign, step.actor))
  {
    if step.Do? {
      CommandLeaves(lib, step.actor, step.command);
      OutcomesAreRight(lib, step.actor, step.command);
    }
  }
}
