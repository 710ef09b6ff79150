/**
 * Scenes and the image files they pin: the commands of src/campaigns/scenes.ts and src/campaigns/media.ts
 * over the rows of src/campaigns/persistence.ts. There is no foreign key from a scene to its images.
 */
module SceneLibrary {
  import opened Wrappers
  import opened Policy
  import FogMask

  type SceneId = string
  type FileId = string
  type TokenId = string
  type CampaignId = string

  datatype Campaign = Campaign(active: bool, members: map<UserId, Member>)

  datatype Token = Token(id: TokenId, tag: string, x: real, y: real, size: real, visible: bool, image: Option<FileId>)

  datatype Scene = Scene(
    campaign: CampaignId, background: FileId, fog: seq<FogMask.FogOp>, tokens: seq<Token>, revision: nat,
    imageRevision: nat)

  datatype Media = Media(campaign: CampaignId, size: nat, revision: nat)

  datatype Library = Library(
    campaigns: map<CampaignId, Campaign>, scenes: map<SceneId, Scene>, media: map<FileId, Media>)

  const MAX_FILES: nat := 256
  const MAX_BYTES: nat := 104857600

  datatype Outcome = Done | BadRequest | NotFound | Conflict | TooLarge

  /** Ids minted by a command are arguments here; `Enabled` below says they are new. */
  datatype Command =
    | CreateScene(scene: SceneId, campaign: CampaignId, background: FileId)
    | UpdateScene(scene: SceneId, expected: nat, background: FileId)
    | FogEdit(scene: SceneId, expected: nat, op: FogMask.FogOp)
    | PlaceToken(scene: SceneId, expected: nat, token: Token)
    | MoveToken(scene: SceneId, expected: nat, tokenId: TokenId, x: real, y: real)
    | RemoveToken(scene: SceneId, expected: nat, tokenId: TokenId)
    | UploadImage(file: FileId, campaign: CampaignId, size: nat)
    | DeleteImage(file: FileId, expected: nat)

  predicate Manages(campaigns: map<CampaignId, Campaign>, c: CampaignId, actor: UserId) {
    c in campaigns && campaigns[c].active && IsGameMaster(Find(campaigns[c].members, actor))
  }

  /** File `f` is a stored image of campaign `c`. */
  predicate Owns(media: map<FileId, Media>, c: CampaignId, f: FileId) { f in media && media[f].campaign == c }

  // ---------- pure list edits ----------

  predicate HasToken(tokens: seq<Token>, id: TokenId) { exists i :: 0 <= i < |tokens| && tokens[i].id == id }

  function Moved(tokens: seq<Token>, id: TokenId, x: real, y: real): (r: seq<Token>)
    ensures |r| == |tokens|
    ensures forall i :: 0 <= i < |r| ==>
      r[i] == if tokens[i].id == id then tokens[i].(x := x, y := y) else tokens[i]
  {
    if |tokens| == 0 then []
    else [if tokens[0].id == id then tokens[0].(x := x, y := y) else tokens[0]] + Moved(tokens[1..], id, x, y)
  }

  function Without(tokens: seq<Token>, id: TokenId): (r: seq<Token>)
    ensures !HasToken(r, id)
    ensures forall t :: t in r <==> t in tokens && t.id != id
  {
    if |tokens| == 0 then []
    else if tokens[0].id == id then Without(tokens[1..], id)
    else [tokens[0]] + Without(tokens[1..], id)
  }

  // ---------- what a scene pins ----------

  predicate References(s: Scene, f: FileId) {
    s.background == f || exists i :: 0 <= i < |s.tokens| && s.tokens[i].image == Some(f)
  }

  predicate Referenced(scenes: map<SceneId, Scene>, f: FileId) {
    exists s :: s in scenes && References(scenes[s], f)
  }

  // ---------- quota ----------

  function Share(m: Media, c: CampaignId): nat { if m.campaign == c then m.size else 0 }

  ghost function FilesOf(media: map<FileId, Media>, c: CampaignId): set<FileId> {
    set f | f in media && media[f].campaign == c
  }

  /** How many of the campaign's files lie outside `rest`. */
  ghost function Counted(media: map<FileId, Media>, rest: set<FileId>, c: CampaignId): nat {
    |FilesOf(media, c) - rest|
  }

  lemma CountNone(media: map<FileId, Media>, c: CampaignId)
    ensures Counted(media, media.Keys, c) == 0
  {
    assert FilesOf(media, c) - media.Keys == {};
  }

  lemma CountOne(media: map<FileId, Media>, rest: set<FileId>, c: CampaignId, f: FileId)
    requires f in rest && f in media
    ensures Counted(media, rest - {f}, c) == Counted(media, rest, c) + if media[f].campaign == c then 1 else 0
  {
    var outside := FilesOf(media, c) - rest;
    if media[f].campaign == c {
      assert FilesOf(media, c) - (rest - {f}) == outside + {f};
    } else {
      assert FilesOf(media, c) - (rest - {f}) == outside;
    }
  }

  ghost function Pick(files: set<FileId>): (f: FileId)
    requires files != {}
    ensures f in files
  {
    var f :| f in files; f
  }

  ghost function BytesIn(media: map<FileId, Media>, files: set<FileId>, c: CampaignId): nat
    requires files <= media.Keys
  {
    if files == {} then 0 else Share(media[Pick(files)], c) + BytesIn(media, files - {Pick(files)}, c)
  }

  ghost function BytesOf(media: map<FileId, Media>, c: CampaignId): nat { BytesIn(media, media.Keys, c) }

  /** The total does not depend on the order in which files are counted. */
  lemma {:induction false} BytesSplit(media: map<FileId, Media>, files: set<FileId>, c: CampaignId, f: FileId)
    requires f in files && files <= media.Keys
    ensures BytesIn(media, files, c) == Share(media[f], c) + BytesIn(media, files - {f}, c)
  {
    var g := Pick(files);
    if g != f {
      BytesSplit(media, files - {g}, c, f);
      BytesSplit(media, files - {f}, c, g);
      assert files - {f} - {g} == files - {g} - {f};
    }
  }

  lemma {:induction false} SameBytes(a: map<FileId, Media>, b: map<FileId, Media>, files: set<FileId>, c: CampaignId)
    requires files <= a.Keys && files <= b.Keys && forall f :: f in files ==> a[f] == b[f]
    ensures BytesIn(a, files, c) == BytesIn(b, files, c)
  {
    if files != {} {
      SameBytes(a, b, files - {Pick(files)}, c);
    }
  }

  lemma BytesRemoved(media: map<FileId, Media>, f: FileId, c: CampaignId)
    requires f in media
    ensures BytesOf(media, c) == Share(media[f], c) + BytesOf(media - {f}, c)
  {
    BytesSplit(media, media.Keys, c, f);
    assert (media - {f}).Keys == media.Keys - {f};
    SameBytes(media, media - {f}, media.Keys - {f}, c);
  }

  lemma BytesAdded(media: map<FileId, Media>, f: FileId, m: Media, c: CampaignId)
    requires f !in media
    ensures BytesOf(media[f := m], c) == BytesOf(media, c) + Share(m, c)
  {
    BytesRemoved(media[f := m], f, c);
    assert media[f := m] - {f} == media;
  }

  ghost predicate QuotaFull(media: map<FileId, Media>, c: CampaignId, size: nat) {
    |FilesOf(media, c)| >= MAX_FILES || BytesOf(media, c) + size > MAX_BYTES
  }

  // ---------- verdict and effect of every command ----------

  function ForScene(lib: Library, actor: UserId, scene: SceneId, expected: nat): Outcome {
    if scene !in lib.scenes || !Manages(lib.campaigns, lib.scenes[scene].campaign, actor) then NotFound
    else if lib.scenes[scene].revision != expected then Conflict
    else Done
  }

  ghost function Verdict(lib: Library, actor: UserId, c: Command): Outcome {
    match c
    case CreateScene(_, campaign, background) =>
      if Manages(lib.campaigns, campaign, actor) && Owns(lib.media, campaign, background) then Done else NotFound
    case UpdateScene(scene, expected, background) =>
      var v := ForScene(lib, actor, scene, expected);
      if v.Done? && !Owns(lib.media, lib.scenes[scene].campaign, background) then NotFound else v
    case FogEdit(scene, expected, op) =>
      if FogMask.AdmittedOp(op) then ForScene(lib, actor, scene, expected) else BadRequest
    case PlaceToken(scene, expected, token) =>
      var v := ForScene(lib, actor, scene, expected);
      if v.Done? && token.image.Some? && !Owns(lib.media, lib.scenes[scene].campaign, token.image.value) then NotFound
      else v
    case MoveToken(scene, expected, id, _, _) =>
      var v := ForScene(lib, actor, scene, expected);
      if v.Done? && !HasToken(lib.scenes[scene].tokens, id) then NotFound else v
    case RemoveToken(scene, expected, id) =>
      var v := ForScene(lib, actor, scene, expected);
      if v.Done? && !HasToken(lib.scenes[scene].tokens, id) then NotFound else v
    case UploadImage(_, campaign, size) =>
      if !Manages(lib.campaigns, campaign, actor) then NotFound
      else if QuotaFull(lib.media, campaign, size) then TooLarge
      else Done
    case DeleteImage(file, expected) =>
      if file !in lib.media || !Manages(lib.campaigns, lib.media[file].campaign, actor) then NotFound
      else if lib.media[file].revision != expected || Referenced(lib.scenes, file) then Conflict
      else Done
  }

  /** A new background starts over: no fog, no tokens, a new picture. The same one changes nothing but the revision. */
  function Rebased(s: Scene, background: FileId): Scene {
    if background == s.background then s.(revision := s.revision + 1)
    else s.(background := background, fog := [], tokens := [], imageRevision := s.imageRevision + 1,
      revision := s.revision + 1)
  }

  function Fogged(s: Scene, op: FogMask.FogOp): Scene {
    s.(fog := s.fog + [op], imageRevision := s.imageRevision + 1, revision := s.revision + 1)
  }

  function Retokened(s: Scene, tokens: seq<Token>): Scene { s.(tokens := tokens, revision := s.revision + 1) }

  function NewScene(campaign: CampaignId, background: FileId): Scene { Scene(campaign, background, [], [], 1, 1) }

  ghost function Edited(s: Scene, c: Command): Scene {
    match c
    case UpdateScene(_, _, background) => Rebased(s, background)
    case FogEdit(_, _, op) => Fogged(s, op)
    case PlaceToken(_, _, token) => Retokened(s, s.tokens + [token])
    case MoveToken(_, _, id, x, y) => Retokened(s, Moved(s.tokens, id, x, y))
    case RemoveToken(_, _, id) => Retokened(s, Without(s.tokens, id))
    case _ => s
  }

  ghost predicate EditsScene(c: Command) {
    c.UpdateScene? || c.FogEdit? || c.PlaceToken? || c.MoveToken? || c.RemoveToken?
  }

  ghost function After(lib: Library, actor: UserId, c: Command): Library {
    if !Verdict(lib, actor, c).Done? then lib else
    match c
    case CreateScene(scene, campaign, background) => lib.(scenes := lib.scenes[scene := NewScene(campaign, background)])
    case UploadImage(file, campaign, size) => lib.(media := lib.media[file := Media(campaign, size, 1)])
    case DeleteImage(file, _) => lib.(media := lib.media - {file})
    case _ => lib.(scenes := lib.scenes[c.scene := Edited(lib.scenes[c.scene], c)])
  }

  // ---------- the rows, and the commands that change them under the campaign lock ----------

  class Store {
    var campaigns: map<CampaignId, Campaign>
    var scenes: map<SceneId, Scene>
    var media: map<FileId, Media>

    ghost function View(): Library reads this { Library(campaigns, scenes, media) }

    constructor ()
      ensures View() == Library(map[], map[], map[])
    {
      campaigns, scenes, media := map[], map[], map[];
    }

    /** The aggregate query, as a fold over the campaign's rows. */
    method MediaUsage(c: CampaignId) returns (count: nat, bytes: nat)
      ensures count == |FilesOf(media, c)| && bytes == BytesOf(media, c)
    {
      count, bytes := 0, 0;
      var rest := media.Keys;
      CountNone(media, c);
      while rest != {}
        invariant rest <= media.Keys
        invariant count == Counted(media, rest, c)
        invariant bytes + BytesIn(media, rest, c) == BytesOf(media, c)
        decreases |rest|
      {
        var f :| f in rest;
        BytesSplit(media, rest, c, f);
        CountOne(media, rest, c, f);
        if media[f].campaign == c {
          count, bytes := count + 1, bytes + media[f].size;
        }
        rest := rest - {f};
      }
      assert FilesOf(media, c) - {} == FilesOf(media, c);
    }

    method UpdateSceneBackground(scene: SceneId, background: FileId, expected: nat) returns (row: Option<Scene>)
      modifies this`scenes
      ensures row ==
        if scene in old(scenes) &&
          old(scenes)[scene].revision == expected then Some(Rebased(old(scenes)[scene], background))
        else None
      ensures scenes == if row.Some? then old(scenes)[scene := row.value] else old(scenes)
    {
      if scene !in scenes || scenes[scene].revision != expected { return None; }
      var s := scenes[scene];
      var differs := s.background != background;
      row := Some(s.(
        background := background,
        fog := if differs then [] else s.fog,
        tokens := if differs then [] else s.tokens,
        imageRevision := if differs then s.imageRevision + 1 else s.imageRevision,
        revision := s.revision + 1));
      scenes := scenes[scene := row.value];
    }

    method AppendSceneFogOp(scene: SceneId, op: FogMask.FogOp, expected: nat) returns (row: Option<Scene>)
      modifies this`scenes
      ensures row ==
        if scene in old(scenes) && old(scenes)[scene].revision == expected then Some(Fogged(old(scenes)[scene], op))
        else None
      ensures scenes == if row.Some? then old(scenes)[scene := row.value] else old(scenes)
    {
      if scene !in scenes || scenes[scene].revision != expected { return None; }
      var s := scenes[scene];
      row := Some(s.(fog := s.fog + [op], imageRevision := s.imageRevision + 1, revision := s.revision + 1));
      scenes := scenes[scene := row.value];
    }

    method UpdateSceneTokens(scene: SceneId, tokens: seq<Token>, expected: nat) returns (row: Option<Scene>)
      modifies this`scenes
      ensures row ==
        if scene in old(scenes) &&
          old(scenes)[scene].revision == expected then Some(Retokened(old(scenes)[scene], tokens))
        else None
      ensures scenes == if row.Some? then old(scenes)[scene := row.value] else old(scenes)
    {
      if scene !in scenes || scenes[scene].revision != expected { return None; }
      row := Some(scenes[scene].(tokens := tokens, revision := scenes[scene].revision + 1));
      scenes := scenes[scene := row.value];
    }

    method DeleteMediaFile(file: FileId, expected: nat) returns (row: Option<Media>)
      modifies this`media
      ensures row ==
        if file in old(media) && old(media)[file].revision == expected then Some(old(media)[file]) else None
      ensures media == if row.Some? then old(media) - {file} else old(media)
    {
      if file !in media || media[file].revision != expected { return None; }
      row := Some(media[file]);
      media := media - {file};
    }

    method DoCreateScene(actor: UserId, scene: SceneId, campaign: CampaignId, background: FileId)
        returns (outcome: Outcome)
      modifies this
      ensures outcome == Verdict(old(View()), actor, CreateScene(scene, campaign, background))
      ensures View() == After(old(View()), actor, CreateScene(scene, campaign, background))
    {
      if !Manages(campaigns, campaign, actor) { return NotFound; }
      if background !in media || media[background].campaign != campaign { return NotFound; }
      scenes := scenes[scene := Scene(campaign, background, [], [], 1, 1)];
      return Done;
    }

    method DoUpdateScene(actor: UserId, scene: SceneId, expected: nat, background: FileId) returns (outcome: Outcome)
      modifies this
      ensures outcome == Verdict(old(View()), actor, UpdateScene(scene, expected, background))
      ensures View() == After(old(View()), actor, UpdateScene(scene, expected, background))
    {
      if scene !in scenes { return NotFound; }
      var locked := scenes[scene];
      if !Manages(campaigns, locked.campaign, actor) { return NotFound; }
      if locked.revision != expected { return Conflict; }
      if background !in media || media[background].campaign != locked.campaign { return NotFound; }
      var updated := UpdateSceneBackground(scene, background, expected);
      if updated.None? { return Conflict; }
      return Done;
    }

    method DoFogEdit(actor: UserId, scene: SceneId, expected: nat, op: FogMask.FogOp) returns (outcome: Outcome)
      modifies this
      ensures outcome == Verdict(old(View()), actor, FogEdit(scene, expected, op))
      ensures View() == After(old(View()), actor, FogEdit(scene, expected, op))
    {
      if !FogMask.AdmittedOp(op) { return BadRequest; }
      if scene !in scenes { return NotFound; }
      var locked := scenes[scene];
      if !Manages(campaigns, locked.campaign, actor) { return NotFound; }
      if locked.revision != expected { return Conflict; }
      var updated := AppendSceneFogOp(scene, op, expected);
      if updated.None? { return Conflict; }
      return Done;
    }

    method DoPlaceToken(actor: UserId, scene: SceneId, expected: nat, token: Token) returns (outcome: Outcome)
      modifies this
      ensures outcome == Verdict(old(View()), actor, PlaceToken(scene, expected, token))
      ensures View() == After(old(View()), actor, PlaceToken(scene, expected, token))
    {
      if scene !in scenes { return NotFound; }
      var locked := scenes[scene];
      if !Manages(campaigns, locked.campaign, actor) { return NotFound; }
      if locked.revision != expected { return Conflict; }
      if token.image.Some? {
        if token.image.value !in media || media[token.image.value].campaign != locked.campaign { return NotFound; }
      }
      var updated := UpdateSceneTokens(scene, locked.tokens + [token], expected);
      if updated.None? { return Conflict; }
      return Done;
    }

    method DoMoveToken(actor: UserId, scene: SceneId, expected: nat, id: TokenId, x: real, y: real)
        returns (outcome: Outcome)
      modifies this
      ensures outcome == Verdict(old(View()), actor, MoveToken(scene, expected, id, x, y))
      ensures View() == After(old(View()), actor, MoveToken(scene, expected, id, x, y))
    {
      if scene !in scenes { return NotFound; }
      var locked := scenes[scene];
      if !Manages(campaigns, locked.campaign, actor) { return NotFound; }
      if locked.revision != expected { return Conflict; }
      if !HasToken(locked.tokens, id) { return NotFound; }
      var updated := UpdateSceneTokens(scene, Moved(locked.tokens, id, x, y), expected);
      if updated.None? { return Conflict; }
      return Done;
    }

    method DoRemoveToken(actor: UserId, scene: SceneId, expected: nat, id: TokenId) returns (outcome: Outcome)
      modifies this
      ensures outcome == Verdict(old(View()), actor, RemoveToken(scene, expected, id))
      ensures View() == After(old(View()), actor, RemoveToken(scene, expected, id))
    {
      if scene !in scenes { return NotFound; }
      var locked := scenes[scene];
      if !Manages(campaigns, locked.campaign, actor) { return NotFound; }
      if locked.revision != expected { return Conflict; }
      if !HasToken(locked.tokens, id) { return NotFound; }
      var updated := UpdateSceneTokens(scene, Without(locked.tokens, id), expected);
      if updated.None? { return Conflict; }
      return Done;
    }

    method DoUploadImage(actor: UserId, file: FileId, campaign: CampaignId, size: nat) returns (outcome: Outcome)
      modifies this
      ensures outcome == Verdict(old(View()), actor, UploadImage(file, campaign, size))
      ensures View() == After(old(View()), actor, UploadImage(file, campaign, size))
    {
      if !Manages(campaigns, campaign, actor) { return NotFound; }
      var count, bytes := MediaUsage(campaign);
      if count >= MAX_FILES || bytes + size > MAX_BYTES { return TooLarge; }
      media := media[file := Media(campaign, size, 1)];
      return Done;
    }

    method DoDeleteImage(actor: UserId, file: FileId, expected: nat) returns (outcome: Outcome)
      modifies this
      ensures outcome == Verdict(old(View()), actor, DeleteImage(file, expected))
      ensures View() == After(old(View()), actor, DeleteImage(file, expected))
    {
      if file !in media { return NotFound; }
      var locked := media[file];
      if !Manages(campaigns, locked.campaign, actor) { return NotFound; }
      if locked.revision != expected { return Conflict; }
      if Referenced(scenes, file) { return Conflict; }
      var deleted := DeleteMediaFile(file, expected);
      if deleted.None? { return Conflict; }
      return Done;
    }
  }

  // ---------- what every command keeps ----------

  ghost predicate Pinned(media: map<FileId, Media>, s: Scene) {
    && Owns(media, s.campaign, s.background)
    && forall i :: 0 <= i < |s.tokens| && s.tokens[i].image.Some? ==> Owns(media, s.campaign, s.tokens[i].image.value)
  }

  ghost predicate Drawable(s: Scene) {
    && 1 <= s.imageRevision <= s.revision
    && forall o :: 0 <= o < |s.fog| ==> FogMask.AdmittedOp(s.fog[o])
  }

  ghost predicate NoDanglingPins(lib: Library) {
    forall s {:trigger lib.scenes[s]} :: s in lib.scenes ==> Pinned(lib.media, lib.scenes[s]) && Drawable(lib.scenes[s])
  }

  ghost predicate WithinQuota(media: map<FileId, Media>, c: CampaignId) {
    |FilesOf(media, c)| <= MAX_FILES && BytesOf(media, c) <= MAX_BYTES
  }

  ghost predicate Inv(lib: Library) {
    NoDanglingPins(lib) && forall c :: WithinQuota(lib.media, c)
  }

  lemma EditedStaysPinned(lib: Library, actor: UserId, c: Command)
    requires EditsScene(c) && Verdict(lib, actor, c).Done? && NoDanglingPins(lib)
    ensures c.scene in lib.scenes
    ensures Pinned(lib.media, Edited(lib.scenes[c.scene], c)) && Drawable(Edited(lib.scenes[c.scene], c))
  {
    var s := lib.scenes[c.scene];
    if c.RemoveToken? {
      var kept := Without(s.tokens, c.tokenId);
      forall i | 0 <= i < |kept| && kept[i].image.Some? ensures Owns(lib.media, s.campaign, kept[i].image.value) {
        assert kept[i] in s.tokens;
      }
    }
  }

  lemma UploadKeepsQuota(media: map<FileId, Media>, file: FileId, campaign: CampaignId, size: nat, c: CampaignId)
    requires file !in media && WithinQuota(media, c) && !QuotaFull(media, campaign, size)
    ensures WithinQuota(media[file := Media(campaign, size, 1)], c)
  {
    var m := Media(campaign, size, 1);
    BytesAdded(media, file, m, c);
    if c == campaign {
      assert FilesOf(media[file := m], c) == FilesOf(media, c) + {file};
    } else {
      assert FilesOf(media[file := m], c) == FilesOf(media, c);
    }
  }

  lemma DeleteKeepsQuota(media: map<FileId, Media>, file: FileId, c: CampaignId)
    requires file in media && WithinQuota(media, c)
    ensures WithinQuota(media - {file}, c)
  {
    BytesRemoved(media, file, c);
    assert FilesOf(media - {file}, c) == FilesOf(media, c) - {file};
  }

  lemma DeleteKeepsPins(lib: Library, file: FileId)
    requires NoDanglingPins(lib) && !Referenced(lib.scenes, file)
    ensures NoDanglingPins(lib.(media := lib.media - {file}))
  {
    forall s | s in lib.scenes ensures Pinned(lib.media - {file}, lib.scenes[s]) {
      assert !References(lib.scenes[s], file);
    }
  }

  /** Campaign status and membership change elsewhere, in any way, between two commands. */
  datatype Step = Govern(campaigns: map<CampaignId, Campaign>) | Do(actor: UserId, command: Command)

  ghost predicate Enabled(lib: Library, step: Step) {
    step.Do? ==>
      (step.command.CreateScene? ==> step.command.scene !in lib.scenes) &&
      (step.command.UploadImage? ==> step.command.file !in lib.media)
  }

  ghost function Next(lib: Library, step: Step): Library {
    match step
    case Govern(campaigns) => lib.(campaigns := campaigns)
    case Do(actor, command) => After(lib, actor, command)
  }

  lemma StepKeepsInv(lib: Library, step: Step)
    requires Inv(lib) && Enabled(lib, step)
    ensures Inv(Next(lib, step))
  {
    if step.Do? && Verdict(lib, step.actor, step.command).Done? {
      var c := step.command;
      if EditsScene(c) {
        EditedStaysPinned(lib, step.actor, c);
      } else if c.UploadImage? {
        forall k ensures WithinQuota(Next(lib, step).media, k) {
          UploadKeepsQuota(lib.media, c.file, c.campaign, c.size, k);
        }
      } else if c.DeleteImage? {
        DeleteKeepsPins(lib, c.file);
        forall k ensures WithinQuota(Next(lib, step).media, k) {
          DeleteKeepsQuota(lib.media, c.file, k);
        }
      }
    }
  }

  ghost predicate IsRun(lib: Library, steps: seq<Step>)
    decreases |steps|
  {
    |steps| > 0 ==> Enabled(lib, steps[0]) && IsRun(Next(lib, steps[0]), steps[1..])
  }

  ghost function Final(lib: Library, steps: seq<Step>): Library
    decreases |steps|
  {
    if |steps| == 0 then lib else Final(Next(lib, steps[0]), steps[1..])
  }

  lemma EmptyIsValid(campaigns: map<CampaignId, Campaign>)
    ensures Inv(Library(campaigns, map[], map[]))
  {
    forall c ensures WithinQuota(map[], c) {
      assert FilesOf(map[], c) == {};
    }
  }

  lemma {:induction false} RunKeepsInv(lib: Library, steps: seq<Step>)
    requires Inv(lib) && IsRun(lib, steps)
    ensures Inv(Final(lib, steps))
    decreases |steps|
  {
    if |steps| > 0 {
      StepKeepsInv(lib, steps[0]);
      RunKeepsInv(Next(lib, steps[0]), steps[1..]);
    }
  }

  /** In every run every background and every token image is a stored image of the scene's campaign, within quota. */
  lemma ImagesNeverDangle(campaigns: map<CampaignId, Campaign>, steps: seq<Step>)
    requires IsRun(Library(campaigns, map[], map[]), steps)
    ensures var lib := Final(Library(campaigns, map[], map[]), steps);
      && (forall s, f :: s in lib.scenes && References(lib.scenes[s], f) ==> Owns(lib.media, lib.scenes[s].campaign, f))
      && (forall c :: |FilesOf(lib.media, c)| <= MAX_FILES && BytesOf(lib.media, c) <= MAX_BYTES)
  {
    EmptyIsValid(campaigns);
    RunKeepsInv(Library(campaigns, map[], map[]), steps);
    var lib := Final(Library(campaigns, map[], map[]), steps);
    forall c ensures |FilesOf(lib.media, c)| <= MAX_FILES && BytesOf(lib.media, c) <= MAX_BYTES {
      assert WithinQuota(lib.media, c);
    }
  }

  /** So, at every size, the mask drawn for any stored scene agrees with the point test that hides its tokens. */
  lemma StoredScenesRasterizeExactly(campaigns: map<CampaignId, Campaign>, steps: seq<Step>, s: SceneId, width: nat,
      height: nat)
    requires IsRun(Library(campaigns, map[], map[]), steps)
    requires s in Final(Library(campaigns, map[], map[]), steps).scenes
    ensures FogMask.MaskAgrees(Final(Library(campaigns, map[], map[]), steps).scenes[s].fog, width, height)
  {
    EmptyIsValid(campaigns);
    RunKeepsInv(Library(campaigns, map[], map[]), steps);
    var scene := Final(Library(campaigns, map[], map[]), steps).scenes[s];
    assert Drawable(scene);
    FogMask.AdmittedFogIsPointTest(scene.fog, width, height);
  }

  // ---------- revisions ----------

  /** `b` is `a` at the same time or later. */
  ghost predicate Later(a: Scene, b: Scene) {
    && a.campaign == b.campaign
    && a.revision <= b.revision
    && a.imageRevision <= b.imageRevision
    && (a.imageRevision == b.imageRevision ==> a.background == b.background && a.fog == b.fog)
    && (a.revision == b.revision ==> a == b)
  }

  ghost predicate Evolves(a: Library, b: Library) {
    forall s {:trigger b.scenes[s]} {:trigger s in a.scenes} ::
      s in a.scenes ==> s in b.scenes && Later(a.scenes[s], b.scenes[s])
  }

  lemma StepEvolves(lib: Library, step: Step)
    requires Enabled(lib, step)
    ensures Evolves(lib, Next(lib, step))
  {
  }

  /** The picture's revision moves exactly when the picture does. */
  lemma ImageRevisionTracksPicture(lib: Library, step: Step, s: SceneId)
    requires Enabled(lib, step) && s in lib.scenes
    ensures s in Next(lib, step).scenes
    ensures var a, b := lib.scenes[s], Next(lib, step).scenes[s];
      (b.imageRevision != a.imageRevision <==> (b.background != a.background || b.fog != a.fog)) &&
      (b.imageRevision == a.imageRevision || b.imageRevision == a.imageRevision + 1)
  {
    var a, b := lib.scenes[s], Next(lib, step).scenes[s];
    if step.Do? && step.command.FogEdit? && b != a {
      assert |b.fog| == |a.fog| + 1;
    }
  }

  /** An image revision fixes background and fog for all time: whatever happens in between, equal means equal. */
  lemma {:induction false} ImageRevisionFixesPicture(lib: Library, steps: seq<Step>)
    requires IsRun(lib, steps)
    ensures Evolves(lib, Final(lib, steps))
    decreases |steps|
  {
    if |steps| > 0 {
      var mid := Next(lib, steps[0]);
      StepEvolves(lib, steps[0]);
      ImageRevisionFixesPicture(mid, steps[1..]);
      forall s | s in lib.scenes
        ensures s in Final(lib, steps).scenes && Later(lib.scenes[s], Final(lib, steps).scenes[s])
      {
        assert s in mid.scenes;
      }
    }
  }

  ghost predicate Commits(lib: Library, step: Step, s: SceneId) {
    step.Do? && EditsScene(step.command) && step.command.scene == s && Verdict(lib, step.actor, step.command).Done?
  }

  ghost function CommittedEdits(lib: Library, steps: seq<Step>, s: SceneId): nat
    decreases |steps|
  {
    if |steps| == 0 then 0
    else (if Commits(lib, steps[0], s) then 1 else 0) + CommittedEdits(Next(lib, steps[0]), steps[1..], s)
  }

  /** A scene's revision counts its committed edits, no more and no fewer. */
  lemma {:induction false} RevisionCountsEdits(lib: Library, steps: seq<Step>, s: SceneId)
    requires IsRun(lib, steps) && s in lib.scenes
    ensures s in Final(lib, steps).scenes
    ensures Final(lib, steps).scenes[s].revision == lib.scenes[s].revision + CommittedEdits(lib, steps, s)
    decreases |steps|
  {
    if |steps| > 0 {
      RevisionCountsEdits(Next(lib, steps[0]), steps[1..], s);
    }
  }

  /** Two edits sent against the same revision never both commit. */
  lemma SecondEditAtOneRevisionConflicts(lib: Library, first: Step, steps: seq<Step>, second: Step, s: SceneId)
    requires Enabled(lib, first) && IsRun(Next(lib, first), steps)
    requires s in lib.scenes && Commits(lib, first, s)
    requires second.Do? && EditsScene(second.command) && second.command.scene == s
    requires second.command.expected == first.command.expected
    ensures !Commits(Final(Next(lib, first), steps), second, s)
  {
    ImageRevisionFixesPicture(Next(lib, first), steps);
    assert s in Next(lib, first).scenes;
  }
}
