# A verified model of campaigns, live displays and scene images

This project models, in Dafny, the stateful core of the repository: how a scene write reaches a display, how the
fog of war becomes pixels and a cache of pixels, and how campaign membership, invitations, content grants,
character custody, images and idempotency hold together over whole runs. Where the source changes state step by
step the model does too: classes with fields and methods, loops over arrays and tables, each method proved equal to
a specification function of the old state. What the source promises is proved about those functions, mostly as
statements over every run and every interleaving. What each operation asks for, leaves behind and answers is stated a
second time in terms of rows, readers, points and bytes, and proved equivalent.

Files and what each is for:

| file | subject |
|---|---|
| `scene_events.dfy` | notification payloads, the listening hub, and that no subscriber is silently dropped |
| `display_stream.dfy`, `stream_runs.dfy`, `stream_wire.dfy` | one display stream as an object, its runs beside writers, channel, loads and client, and what its client is sent |
| `fog_mask.dfy` | point test, bounding-box rasterizer, redaction |
| `scene_library.dfy`, `scene_laws.dfy` | scene and image commands: pins, quota, revisions; who may do what, what is left behind, what stays dark |
| `derivative_cache.dfy`, `cache_currency.dfy`, `cache_laws.dfy` | cached redacted images, racing renders, requests and shared row reads; how old a served image can be; what each step keeps, refuses and serves |
| `policy.dfy` | membership, content, roll and template decisions |
| `campaign_rows.dfy` | the campaign aggregate: verdict and effect of every command |
| `campaign_store.dfy` | the same commands statement by statement over tables |
| `campaign_invariants.dfy`, `campaign_runs.dfy` | what every step keeps, and what holds over runs |
| `campaign_authority.dfy` | who may change what, and which requests have become too old to commit |
| `campaign_laws.dfy`, `campaign_refusals.dfy`, `campaign_effects.dfy` | what each command asks for, why it is refused, and what it leaves of every row |
| `campaign_frames.dfy` | which rows a campaign command reads and writes, and that nothing under another campaign's lock touches them |
| `receipts.dfy`, `receipt_answers.dfy` | idempotency receipts: calls interleaved between look-up, lock, decision, writes and commit, and what callers are told |
| `execution_lease.dfy` | claimed executions whose lease can be taken over |
| `push_lineage.dfy` | saved rolls and their pushes |
| `rate_limiter.dfy`, `content_pages.dfy` | the sliding window, keyset draining |
| `canonical_json.dfy`, `json_round_trip.dfy`, `json_keys.dfy` | key normalization, whether its text survives a jsonb column, and what the orders on keys are |
| `wrappers.dfy` | Option and map look-up |

Ids, tokens and token hashes a command mints are arguments, assumed new; clocks, and the answers of sockets, disks
and image libraries, are arguments or steps of the environment. A transaction's COMMIT and ROLLBACK are atomic and
faithfully reported, and a row lock excludes other holders until then.

## Where the code does less than it says

Five places where the code's words and what it does differ. The first four promise more than the code keeps: each is
proved with its exact condition, and with an input or a whole run that fails. The fifth guards against what no run of
the commands produces.

- `src/campaigns/display.ts:257-262` says a later read always sees the latest committed revision although in-flight
  scene reads are shared. A load joins whatever read is under way (263-272), and that one may have read its row before
  the commit. Over every run a stream at rest has the committed revision if and only if one of its loads was answered by
  a row read after which nothing was committed (`StreamRuns.CaughtUpIffReadAfterTheLastCommit`). Two runs end open, idle
  and one revision behind: a display that opens on another display's read when the notification has already gone by
  (`StreamRuns.OpeningOnAnOldReadLosesAnUpdate`), and a reload that joins one
  (`StreamRuns.ReloadOnAnOldReadLosesAnUpdate`). `StreamRuns.NoUpdateIsLost` and `StreamRuns.IdleIsCaughtUp` therefore
  ask that no commit falls between the reading of a row and a load joining that read. Revocations need no such
  condition (`StreamRuns.NoRevocationIsMissed`), because credentials are read per caller.
- `src/campaigns/display.ts:720-731` rechecks a rendered image because a slow render may outlive a conceal. The recheck
  may join a read from before the conceal, and a cached image (709-714) is not rechecked at all. A rendered
  image was current at some moment after it was in hand if and only if nothing changed the picture between the reading
  of the recheck's row and that moment (`CacheCurrency.RenderedImagesStillCurrentIff`); a cached one is current when
  served if and only if nothing did between the reading of its row and the serving
  (`CacheCurrency.CachedImagesStillCurrentIff`). Three runs serve the old picture of a concealed scene:
  `CacheCurrency.AHitOutlivesAConceal`, `CacheCurrency.AHitPredatesItsRequest`, `CacheCurrency.ARecheckJoinsAnOldRead`.
- `src/campaigns/display.ts:444` says the pixel mask agrees with the point test. `isFogOp` (392-409) lets any finite
  centre and radius through, and with a negative radius the box is empty where the disc is not: mask and point test of a
  run agree at every size if and only if the radius is not negative or the disc misses the inside of the scene
  (`FogMask.MaskAgreesIff`). Fog written by the edit command has positive radii, so stored scenes always agree
  (`SceneLibrary.StoredScenesRasterizeExactly`).
- `src/campaigns/content.ts:227-231` and 1781-1783 say that sorting keys by length and then bytewise, as jsonb does,
  makes the text of an export survive its receipt. The comparator measures UTF-16 code units, jsonb UTF-8 bytes. The
  text survives if and only if, at every depth, both orders agree on the keys that are not integer-like
  (`JsonRoundTrip.TextSurvivesIff`); so it does when all keys are ASCII (`JsonRoundTrip.AsciiTextSurvives`), and with
  an accented key beside a longer plain one it does not (`JsonRoundTrip.AnAccentedKeyMoves`). Integer-like keys do not
  break the round trip, but they do break the order: that comes out if and only if, besides, every integer-like key
  sorts before every other one (`JsonRoundTrip.PromisedOrderIff`). Idempotence and equal output for equal content hold
  for all keys.
- `src/campaigns/display.ts:590-594` provides for a background pin whose image was deleted. No run of the commands
  leads there (`SceneLibrary.ImagesNeverDangle`); a display can still meet it by reading the scene before a background
  change and the image after its deletion.

## Model

| member | source | states |
|---|---|---|
| Policy.WhoReadsARoll | src/campaigns/policy.ts:168-181 | outsiders read none, the principal all, other managers all but the private ones, other players the open ones |
| Policy.WhoReadsANote | src/campaigns/policy.ts:100-144 | a private note is its creator's alone, a manager reads every other one, a player the open ones and those granted; sharing is administered by managers who can read |
| Policy.WhoReadsATemplate | src/campaigns/templatePolicy.ts:22-41 | managers read every template, players an active one that is for all or granted to their present membership generation |
| SceneEventCoding.RoundTrip | src/campaigns/scene-events.ts:30-39 | decoding an encoded event gives the event back |
| SceneEventCoding.DecodesOnlyEncodings | src/campaigns/scene-events.ts:41-60 | a payload decodes to an event, whatever number its revision is, if and only if it carries all the fields of that event's encoding; other fields do not matter, and anything else decodes to nothing |
| SceneEventCoding.PayloadFields | src/campaigns/scene-events.ts:30-60 | the fields on the wire: kind, campaign and, by kind, scene and revision or display; a payload is read as an event if and only if these say so |
| SceneEventHub.HubObject.Lose | src/campaigns/scene-events.ts:107-131 | losing the connection drops and tells every subscriber once, in order, and arms one retry unless closed or already armed |
| SceneEventHub.HubObject.ScheduleRetry | src/campaigns/scene-events.ts:133-142 | at most one retry is armed, none once closed |
| SceneEventHub.HubObject.Notify | src/campaigns/scene-events.ts:154-165 | a decodable event of the live connection is told to every subscriber once, in order; nothing else is told |
| SceneEventHub.HubObject.Subscribe | src/campaigns/scene-events.ts:181-187 | a subscription is accepted if and only if the hub is listening |
| SceneEventHub.HubObject.TimerFires | src/campaigns/scene-events.ts:137-149 | the retry connects unless closed or a connection is there |
| SceneEventHub.StartedHubIsAttended | src/campaigns/scene-events.ts:97-205 | in every run subscribers exist only on a live listening connection, and an open hub is connecting, connected or about to retry |
| SceneEventHub.NeverSilentlyDropped | src/campaigns/scene-events.ts:60-70 | a subscriber that stays hears exactly the events delivered while registered, in order, and is told of a loss exactly once, exactly when it stops being registered |
| SceneEventHub.RegisteredExactlyWhen | src/campaigns/scene-events.ts:107-204 | a subscriber is registered from an accepted subscription until it leaves, the hub closes or the listening connection is lost |
| SceneEventHub.ConnectionMoves | src/campaigns/scene-events.ts:144-204 | an open hub without a connection makes one when started or retried; it listens from the live connection's word until that breaks or the hub closes |
| SceneEventHub.RetriesAreCounted | src/campaigns/scene-events.ts:133-142 | a retry is armed exactly when an open hub loses its connection; each counts up until a connection listens |
| SceneEventHub.ClosedHubStaysQuiet | src/campaigns/scene-events.ts:191-204 | over every run after its close a hub tells nobody anything, registers nobody and makes no connection |
| StreamState.DrainTidy | src/campaigns/display-stream.ts:123-131 | a drain keeps the output discipline: the pending revision is sent once, the timer is disarmed |
| StreamState.DeliverTidy | src/campaigns/display-stream.ts:133-137 | only a newer revision is delivered, and the latest one is either sent or pending |
| StreamState.RevokeTidy | src/campaigns/display-stream.ts:139-143 | a revocation is written only to an unblocked sink and always ends the stream |
| StreamState.ReturnTidy | src/campaigns/display-stream.ts:145-169 | every outcome of a load keeps the output discipline |
| StreamState.AttachTidy | src/campaigns/display-stream.ts:227-247 | attaching sends what was pending or ends a closed stream's response |
| StreamObject.OpenStream.Close | src/campaigns/display-stream.ts:95-107 | closing happens once: unsubscribed, timer off, nothing pending, response ended when attached |
| StreamObject.OpenStream.Flush | src/campaigns/display-stream.ts:109-121 | writes to an attached unblocked sink, else keeps the revision pending; a refused write blocks and arms the timer |
| StreamObject.OpenStream.OnDrain | src/campaigns/display-stream.ts:123-131 | clears the block and sends what was pending |
| StreamObject.OpenStream.Deliver | src/campaigns/display-stream.ts:133-137 | ignores revisions not newer than the last sent |
| StreamObject.OpenStream.Revoke | src/campaigns/display-stream.ts:139-143 | notifies an unblocked client and closes |
| StreamObject.OpenStream.Reload | src/campaigns/display-stream.ts:145-150 | one load at a time: a second request only marks the stream dirty |
| StreamObject.OpenStream.ReloadReturned | src/campaigns/display-stream.ts:151-169 | a returned load delivers, revokes or closes, and runs again exactly when dirty |
| StreamObject.OpenStream.OpeningReturned | src/campaigns/display-stream.ts:195-221 | the opening load repeats while dirty, then yields the stream or refuses |
| StreamObject.OpenStream.OnEvent | src/campaigns/display-stream.ts:171-193 | the callback has its specified effect; which events that answers and which it ignores is `StreamRuns.ConcerningEventsAreAnswered` and `StreamRuns.OtherEventsAreIgnored` |
| StreamObject.OpenStream.OnLost | src/campaigns/display-stream.ts:182-193 | a lost subscription closes the stream |
| StreamObject.OpenStream.Attach | src/campaigns/display-stream.ts:227-247 | the response joins: pending snapshot out, or ended when already closed |
| StreamObject.OpenStream.Heartbeat | src/campaigns/display-stream.ts:237-245 | a heartbeat is written only to an open unblocked sink |
| StreamObject.OpenStream.StallFires | src/campaigns/display-stream.ts:109-121 | a client that stays blocked is cut off |
| StreamRuns.NoUpdateIsLost | src/campaigns/display-stream.ts:145-219 | in every run in which no commit falls between the reading of a row and a load joining that read: at every point each committed revision is sent, or covered by an undelivered notification, by the dirty mark, or by a load that has yet to read or has read that far, or the stream is closed |
| StreamRuns.IdleIsCaughtUp | src/campaigns/display-stream.ts:145-219 | in those runs an open stream with nothing outstanding has the committed revision, and an unblocked client was sent it last |
| StreamRuns.NoRevocationIsMissed | src/campaigns/display-stream.ts:139-193 | in every run, opening loads that join included, and although a load that has passed its credential check may still bring a snapshot: a revoked display's stream is closed or about to meet the revocation, and at rest it is closed |
| StreamRuns.NoWithdrawalIsMissed | src/campaigns/persistence.ts:1709-1726 | in every run the stream of a scene whose image was deleted is closed or about to meet the notice, and at rest it is closed |
| StreamRuns.ConcerningEventsAreAnswered | src/campaigns/display-stream.ts:171-193 | in every run at rest and open, every event about the stream's scene, display or campaign that reached it was followed by a load asked for after it |
| StreamRuns.OtherEventsAreIgnored | src/campaigns/display-stream.ts:171-193 | once opened, a stream is left as it was by an event about any other scene, display or campaign |
| StreamRuns.ClientSeesDisciplinedOutput | src/campaigns/display-stream.ts:95-143 | in every run, whatever reads its loads join, scene revisions on the wire strictly increase, nothing is written while blocked or after the end, `pending` is the last revision or nothing is owed, and the stall timer is armed exactly while blocked |
| StreamWire.ClientIsSentWhatIsDue | src/campaigns/display-stream.ts:95-169 | over every run the chunks written are exactly those due, in order: a heartbeat or newer snapshot while writable, the snapshot kept back on drain or attach, and word of a revocation exactly when a load of a writable stream finds nothing |
| StreamWire.ClosesExactlyWhen | src/campaigns/display-stream.ts:95-193 | a stream closes exactly when it stalls, its client leaves, the hub is lost, or a load brings anything but a snapshot |
| StreamRuns.ReloadsTerminate | src/campaigns/display-stream.ts:145-169 | without new notifications every schedule of deliveries and loads has bounded length and stops only at rest |
| StreamRuns.CaughtUpIffReadAfterTheLastCommit | src/campaigns/display.ts:257-272 | over every run a stream at rest and open has the committed revision if and only if one of its loads was answered by a row read after which nothing was committed |
| StreamRuns.OpeningOnAnOldReadLosesAnUpdate | src/campaigns/display.ts:257-272 | a display opens on another's read from before the commit it was never told of, and ends open, idle, unblocked and one revision behind |
| StreamRuns.ReloadOnAnOldReadLosesAnUpdate | src/campaigns/display.ts:257-272 | a stream that hears of the commit reloads on such a read and ends so too |
| FogMask.IsPointRevealed | src/campaigns/display.ts:446-459 | the last op that touches a point decides and an untouched point is concealed; under one op the revealed points are those of the discs round its dabs, or none |
| FogMask.DabIsRound | src/campaigns/display.ts:446-459 | whether a dab reveals a point depends on its distance from the centre alone |
| FogMask.DabReachesItsRadius | src/campaigns/display.ts:446-459 | along the axis a dab reveals exactly the points no further than its radius |
| FogMask.FogIsMadeOfDabs | src/campaigns/display.ts:446-459 | no ops reveal nothing; of more, the last decides for every point that one of its dabs alone would reveal |
| FogMask.OneOpIsItsDiscs | src/campaigns/display.ts:446-459 | one op reveals exactly the discs of its dabs, or nothing |
| FogMask.OneOpMaskIsItsDiscs | src/campaigns/display.ts:469-490 | a cell of its mask is 1 exactly if the middle of the pixel, half a pixel in from its corner, is on one of those discs |
| FogMask.PaintRun | src/campaigns/display.ts:472-486 | the clipped double loop writes exactly the covered pixels inside the box; that they are those of a disc is `FogMask.OneOpMaskIsItsDiscs` |
| FogMask.PaintOp | src/campaigns/display.ts:469-488 | an op writes the union of its runs, in any write order |
| FogMask.BuildRevealMask | src/campaigns/display.ts:467-490 | every cell of the buffer is the picture the boxes draw; for one op whose radii are not negative a cell is 1 exactly if the middle of its pixel is on one of the revealed discs |
| FogMask.BoxNeverMisses | src/campaigns/display.ts:472-476 | for a radius not negative the floor and ceiling box contains every covered pixel centre |
| FogMask.RasterizerIsPointTest | src/campaigns/display.ts:461-490 | for every size and every fog list without negative radii, a mask cell is 1 if and only if its centre passes the point test |
| FogMask.NegativeRadiusMisses | src/campaigns/display.ts:392-409 | for every negative radius whose disc covers a point inside the scene, wherever its centre, a size at which mask and point test differ |
| FogMask.MaskAgreesIff | src/campaigns/display.ts:461-490 | mask and point test of one reveal agree at all sizes if and only if the radius is not negative or the disc misses the inside of the scene; a centre on the scene leaves the sign of the radius |
| FogMask.AdmittedFogIsPointTest | src/campaigns/scenes.ts:187-225 | fog the edit command admits rasterizes exactly |
| FogMask.Blacken | src/campaigns/display.ts:507-511 | a concealed pixel's four bytes become black and opaque, no other byte moves |
| FogMask.RedactInPlace | src/campaigns/display.ts:504-511 | concealed pixels become opaque black in place, every other byte stays |
| FogMask.CompositeDerivative | src/campaigns/display.ts:497-514 | refused exactly for an empty or short raster, else the redaction of the whole buffer by the fog's mask, which `FogMask.DerivativePixel` says pixel by pixel |
| FogMask.DerivativesAlikeIff | src/campaigns/display.ts:492-514 | the derivatives of two backgrounds under one fog are equal if and only if the backgrounds agree on every pixel whose centre the fog reveals and behind the last pixel |
| FogMask.DerivativePixel | src/campaigns/display.ts:497-514 | a pixel keeps its four bytes if its centre is revealed and is opaque black otherwise |
| SceneLibrary.Store.MediaUsage | src/campaigns/persistence.ts:1640-1643 | the count and byte total of the campaign's files, whatever order they are read in |
| SceneLibrary.Store.UpdateSceneBackground | src/campaigns/persistence.ts:1781-1797 | a matching revision is required and the row written is the specified one; that another file clears fog and tokens is `SceneLaws.NewBackgroundStartsDark` |
| SceneLibrary.Store.AppendSceneFogOp | src/campaigns/persistence.ts:1804-1818 | one op is appended and both revisions advance, under the revision guard |
| SceneLibrary.Store.UpdateSceneTokens | src/campaigns/persistence.ts:1826-1839 | tokens are replaced and the image revision stays, under the revision guard |
| SceneLibrary.Store.DeleteMediaFile | src/campaigns/persistence.ts:1709-1726 | the row goes only at its expected revision |
| SceneLibrary.Store.DoCreateScene | src/campaigns/scenes.ts:483-529 | only a manager of an active campaign, only with a background of that campaign |
| SceneLibrary.Store.DoUpdateScene | src/campaigns/scenes.ts:564-604 | guards in order, then the background change; refused commands change nothing; each field of the row is `SceneLaws.CommandLeaves` |
| SceneLibrary.Store.DoFogEdit | src/campaigns/scenes.ts:639-700 | malformed ops are refused first; a committed edit appends exactly the op |
| SceneLibrary.Store.DoPlaceToken | src/campaigns/scenes.ts:776-835 | a token image must be a stored image of the campaign |
| SceneLibrary.Store.DoMoveToken | src/campaigns/scenes.ts:893-940 | moves the named token and no other |
| SceneLibrary.Store.DoRemoveToken | src/campaigns/scenes.ts:995-1040 | removes the named token and no other |
| SceneLibrary.Store.DoUploadImage | src/campaigns/media.ts:368-412 | refused at 256 files or past 100 MiB |
| SceneLibrary.Store.DoDeleteImage | src/campaigns/media.ts:470-522 | refused while any scene's background or token uses the image |
| SceneLibrary.StepKeepsInv | src/campaigns/scenes.ts:483-604 | no step leaves a dangling pin, an inadmissible fog op or an exceeded quota |
| SceneLibrary.ImagesNeverDangle | src/campaigns/persistence.ts:1640-1647 | in every run each background and token image is a stored image of the scene's campaign, and each campaign stays within 256 files and 100 MiB |
| SceneLibrary.StoredScenesRasterizeExactly | src/campaigns/scenes.ts:639-700 | in every run the mask of every stored scene agrees with the point test at every size |
| SceneLibrary.ImageRevisionTracksPicture | src/campaigns/persistence.ts:1781-1839 | the image revision moves, by one, exactly when background or fog do |
| SceneLibrary.ImageRevisionFixesPicture | src/campaigns/persistence.ts:1781-1839 | over any run an unchanged image revision means the same background and fog, and an unchanged revision the same scene |
| SceneLibrary.RevisionCountsEdits | src/campaigns/scenes.ts:418-429 | a scene's revision counts its committed edits, no more and no fewer |
| SceneLibrary.SecondEditAtOneRevisionConflicts | src/campaigns/scenes.ts:418-429 | two edits sent against one revision never both commit |
| SceneLaws.OutcomesAreRight | src/campaigns/scenes.ts:483-1040 | for every command, each outcome if and only if: malformed op, campaign not run by the actor or image or token missing, stale revision or image in use, 256 files or 100 MiB exceeded, none of these |
| SceneLaws.CommandLeaves | src/campaigns/persistence.ts:1733-1839 | a refused command leaves everything; a granted one leaves every other row, and its own field by field: the op or token appended last, the named token at its new place, the others in order |
| SceneLaws.NewBackgroundStartsDark | src/campaigns/persistence.ts:1781-1797 | right after a background change no point is revealed, every picture rendered of the scene is black up to its last pixel, and no token is left |
| SceneLaws.FogIsItsTale | src/campaigns/persistence.ts:1804-1818 | in every run the fog of a scene is exactly the ops of the fog edits committed since its background last changed, in commit order |
| SceneLaws.ChangesAreTheManagers | src/campaigns/scenes.ts:664-682 | over all steps a scene or image row changes only at the hands of an active owner or co-GM of its active campaign |
| DerivativeService.Renderer.RenderDerivative | src/campaigns/display.ts:292-326 | joins the render of the key that is under way or starts one |
| DerivativeService.Renderer.LookAgain | src/campaigns/display.ts:301-306 | a file that appeared meanwhile settles the render without compositing |
| DerivativeService.Renderer.WriteDerivative | src/campaigns/display.ts:307-320 | the file appears complete or not at all; a failed write does not fail the render |
| DerivativeService.Renderer.SettleTask | src/campaigns/display.ts:321-325 | settling removes the in-flight entry |
| DerivativeService.Renderer.PruneOlderDerivatives | src/campaigns/display.ts:328-343 | removes exactly the scene's older revisions, in any directory order |
| DerivativeService.Renderer.PurgeCampaignDerivatives | src/campaigns/display.ts:360-390 | removes exactly the files of the campaign's scenes |
| CacheRuns.StepKeepsSound | src/campaigns/display.ts:275-390 | every step of requests, renders, evictions and scene commands keeps the cache, the in-flight map and all requests truthful |
| CacheRuns.ServedImagesDepictTheirRevision | src/campaigns/display.ts:689-733 | in every run a served image is the composite of its image revision's background and fog, equals every other image served or cached for that revision, and shows the scene's present fog if the revision is still current |
| CacheCurrency.ServedImagesDepictTheRowRead | src/campaigns/display.ts:689-733 | in every run a served image is the composite of the scene row as it was at the moment that row was read, which is before serving |
| CacheCurrency.RenderedImagesStillCurrentIff | src/campaigns/display.ts:720-731 | a rendered image was current at some moment after it was in hand if and only if no command changed the picture between the reading of the recheck's row and that moment, so always when the recheck does not join a read already made |
| CacheCurrency.CachedImagesStillCurrentIff | src/campaigns/display.ts:709-714 | a cached image was current at some moment of its request if and only if no command changed the picture between the read the request joined and its beginning, and is current when served if and only if none did before the serving |
| CacheCurrency.AHitOutlivesAConceal | src/campaigns/display.ts:709-714 | a run in which a cache hit serves the old picture after a conceal, its row read within the request |
| CacheCurrency.AHitPredatesItsRequest | src/campaigns/display.ts:263-272 | a run in which a request begun after the conceal joins the read from before it and is served the old picture |
| CacheCurrency.ARecheckJoinsAnOldRead | src/campaigns/display.ts:720-731 | a run in which the recheck after a render joins a read from before the conceal and lets the old picture through |
| CacheRuns.OneRenderPerKey | src/campaigns/display.ts:274-326 | at most one render per scene and image revision is under way, and the in-flight map holds exactly those |
| CacheRuns.RowsHaveTheirBytes | src/campaigns/media.ts:357-366 | a stored image's row always has its bytes on disk, of the recorded size |
| CacheLaws.CacheMoves | src/campaigns/display.ts:307-390 | a cached file appears only by a finished write, with the image rendered, and goes only by pruning of a later revision, a purge of its scene or by going missing |
| CacheLaws.RenderedImageIsKept | src/campaigns/display.ts:301-326 | a render that could write its file leaves it in the cache, past its own pruning, and hands on the same image |
| CacheLaws.RendersMove | src/campaigns/display.ts:301-306 | the second look settles for the file if there is one by now, and a failed render has no image |
| CacheLaws.ReadDecides | src/campaigns/display.ts:689-731 | a request is refused exactly if the row read for it is missing or names another image revision, both times it is read |
| CacheLaws.OrphansAreRefused | src/campaigns/display.ts:706-709 | a request is refused exactly if its background is no stored image of the campaign, and then exactly if the bytes are gone |
| CacheLaws.ImagesAreHandedOn | src/campaigns/display.ts:710-729 | a cached file is served if and only if there is one; a render's image is handed on and its failure refused |
| CacheLaws.AnswersStand | src/campaigns/display.ts:689-733 | no step changes an answered request |
| CampaignStore.Store.BumpCampaign | src/campaigns/persistence.ts:717-732 | both revisions advance, under the revision guard |
| CampaignStore.Store.UpdateMembership | src/campaigns/persistence.ts:747-763 | absent fields stay; a row written as removed starts a new generation |
| CampaignStore.Store.UpsertMembershipForAccept | src/campaigns/persistence.ts:1205-1230 | a removed member returns in the next generation, a stranger starts at one; the role is the invitation's (`CampaignEffects.AcceptanceGivesTheRoleIssued`) |
| CampaignStore.Store.FindInvitationByHash | src/campaigns/persistence.ts:1089-1096 | finds the invitation with the hash if there is one |
| CampaignStore.Store.LookUpInvitation | src/campaigns/invitations.ts:787-793 | the look-up before any lock: the invitation with the hash, if it is of that campaign |
| CampaignStore.Store.ConsumeInvitation | src/campaigns/persistence.ts:1122-1153 | records status, consumer and generation, under the revision guard |
| CampaignStore.Store.RotateToken | src/campaigns/persistence.ts:1098-1120 | replaces hash and expiry, under the revision guard |
| CampaignStore.Store.RevokePending | src/campaigns/persistence.ts:1155-1170 | revokes only a pending invitation at its expected revision |
| CampaignStore.Store.ReplaceContentGrants | src/campaigns/persistence.ts:1360-1389 | the new grants are written before the revision is checked, so a refusal here would keep them |
| CampaignStore.Store.DeleteContentGrantsForMember | src/campaigns/persistence.ts:1448-1457 | removes the member's grants on every note of the campaign and nothing else |
| CampaignStore.Store.ReturnForMember | src/characters/campaignPlacement.ts:1093-1162 | detaches the sheets the member is return owner of, and deletes the member's other controller rows and the designations of or by the member |
| CampaignStore.Store.DoCreateCampaign | src/campaigns/index.ts:1042-1062 | the creator is the one active owner, at generation one |
| CampaignStore.Store.DoUpdateMetadata | src/campaigns/index.ts:1217-1270 | guards in order; only the revision advances |
| CampaignStore.Store.DoSetLifecycle | src/campaigns/index.ts:1347-1400 | archive and recover refuse the status that already holds |
| CampaignStore.Store.DoChangeRole | src/campaigns/index.ts:1768-1825 | refused or not, the state is the specification's: no refusal leaves a write behind |
| CampaignStore.Store.DoRemoveMember | src/campaigns/index.ts:1915-2010 | membership, grants, custody, controllers and designations change together or not at all |
| CampaignStore.Store.DoIssue | src/campaigns/invitations.ts:525-567 | the invitation is inserted before the bump, and no refusal keeps it |
| CampaignStore.Store.DoAccept | src/campaigns/invitations.ts:793-871 | decides on the row an earlier look-up named as it is under the locks; membership, invitation and campaign are written in turn, an acceptance has the specification's effect, whose rows are in `CampaignEffects`, and no refusal keeps part of it |
| CampaignStore.Store.DoDecline | src/campaigns/invitations.ts:976-1040 | likewise, and the invitation is consumed without a membership |
| CampaignStore.Store.DoRotate | src/campaigns/invitations.ts:1125-1183 | only a pending invitation gets a new token |
| CampaignStore.Store.DoRevoke | src/campaigns/invitations.ts:1278-1345 | a pending invitation is revoked; any other is left as it is |
| CampaignStore.Store.DoCreateContent | src/campaigns/content.ts:707-767 | players write notes for themselves only; grants go to active members only |
| CampaignStore.Store.DoReplaceGrants | src/campaigns/content.ts:1516-1580 | sharing needs a manager who can read the note; the grants become exactly those asked for, or nothing changes |
| CampaignStore.Store.CheckDesignees | src/characters/campaignPlacement.ts:919-931 | the first designee at fault decides the refusal |
| CampaignStore.Store.DoCreateInCampaign | src/characters/campaignPlacement.ts:576-678 | the pinned version, active controllers and a free place are required; the sheet starts with one open placement |
| CampaignStore.Store.DoAdopt | src/characters/campaignPlacement.ts:720-817 | only the owner's own unattached sheet of the pinned version is adopted; the adopter becomes return owner and controller |
| CampaignStore.Store.DoAssign | src/characters/campaignPlacement.ts:870-978 | controllers are replaced, keeping the return owner; designations are added |
| CampaignStore.Store.DoClaim | src/characters/campaignPlacement.ts:1016-1087 | a designation is consumed and its holder becomes a controller |
| CampaignInvariants.JoinIsValid | src/campaigns/persistence.ts:1205-1230 | joining keeps the one owner, makes the generation odd and stays within the limit |
| CampaignInvariants.LeavingIsValid | src/campaigns/persistence.ts:747-763 | leaving keeps the one owner, makes the generation even and never lowers one |
| CampaignInvariants.AcceptanceKeepsInv | src/campaigns/invitations.ts:787-871 | membership, invitation and campaign changing together keep the whole invariant, and the acceptance belongs to a generation no other has |
| CampaignInvariants.RemovalKeepsInv | src/campaigns/index.ts:1961-2006 | after a removal no grant, controller, designation or return owner names the departed member, and every placement row still tells the truth |
| CampaignInvariants.AdoptKeepsInv | src/characters/campaignPlacement.ts:767-791 | adoption keeps custody |
| CampaignInvariants.AssignKeepsInv | src/characters/campaignPlacement.ts:896-950 | assignment keeps custody and the return owner's control |
| CampaignInvariants.CommandKeepsInv | src/campaigns/index.ts:1173-2048 | every command keeps the whole invariant, granted or refused |
| CampaignInvariants.RunKeepsInv | src/campaigns/index.ts:1173-2048 | so does every run, with sheets edited and transferred and notes edited in between |
| CampaignRuns.RunMovesMembersOn | src/campaigns/persistence.ts:747-763 | over any run generations never decrease, an unchanged generation keeps its status, the owner row stays the owner's, the pinned version stays |
| CampaignRuns.MembershipOverRuns | src/campaigns/persistence.ts:1197-1230 | in every run each campaign has exactly one owner row and it is active, generations are odd exactly while active, members stay within the limit, and grants name active members only |
| CampaignRuns.AcceptReplaysWhileGenerationLasts | src/campaigns/invitations.ts:738-780 | an acceptance can be confirmed again if and only if the generation it began is still the member's |
| CampaignRuns.EndedGenerationNeverWorks | src/campaigns/templatePolicy.ts:22-41 | whatever a template's grants, if those that name a user all come from ended generations of theirs they never work again, and neither does an acceptance; only managers read without a grant |
| CampaignRuns.RunMovesInvitationsOn | src/campaigns/persistence.ts:1098-1170 | an invitation that left pending never changes again |
| CampaignRuns.InvitationConsumedOnce | src/campaigns/invitations.ts:787-907 | after one acceptance or decline no later one of that invitation commits, by any token |
| CampaignRuns.AcceptancesAreDistinctMemberships | src/campaigns/invitations.ts:838-852 | no two accepted invitations stand for one membership generation |
| CampaignRuns.OldLookUpDecidesAlike | src/campaigns/invitations.ts:787-806 | whatever commits between the unlocked look-up of a minted token and the locks, the decision under the locks is that of a look-up made there |
| CampaignRuns.ReplacedTokenIsDead | src/campaigns/invitations.ts:1125-1217 | a token replaced by rotation is unavailable for ever after, also to a call that had found the invitation before the rotation |
| CampaignRuns.InvitationRevisionCounts | src/campaigns/persistence.ts:1098-1170 | an invitation's revision counts its rotations plus at most one way out of pending |
| CampaignRuns.CustodyOverRuns | src/characters/campaignPlacement.ts:533-1162 | in every run each sheet has an owner or a campaign and not both; an attached one has the pinned version, active controllers, designees and designators, a return owner who controls it, and exactly one open placement row of its current generation |
| CampaignRuns.RemovalReturnsExactly | src/characters/campaignPlacement.ts:1093-1162 | removal hands back exactly the member's adopted sheets, with their current state, takes the member off the campaign's other sheets, and touches nothing elsewhere |
| CampaignRuns.AdoptionLastsUntilDeparture | src/characters/campaignPlacement.ts:767-791 | nothing but the adopter's own departure ends an adoption |
| CampaignRuns.AdoptThenDepart | src/characters/campaignPlacement.ts:1093-1162 | adopt, any run, depart: the sheet is its owner's again with the state of that moment, revision up by one and generation by two in all |
| CampaignRuns.CampaignRevisionCounts | src/campaigns/persistence.ts:698-732 | a campaign's revision counts the committed commands that write its row |
| CampaignAuthority.RemovalPermittedIff | src/campaigns/policy.ts:70-88 | never the owner; oneself, or by the owner, or a player by a co-GM |
| CampaignAuthority.RoleChangePermittedIff | src/campaigns/policy.ts:49-68 | the owner moves others between co-GM and player; a co-GM touches players only and makes nobody a co-GM |
| CampaignAuthority.MembershipChangesAreAuthorized | src/campaigns/index.ts:1733-2048 | over all steps a membership row changes only by its own user, by the owner, or, for players staying players or leaving, by a co-GM |
| CampaignAuthority.OnlyTheOwnerInvitesCoGms | src/campaigns/invitations.ts:543-547 | invitations to become co-GM are made, rotated and revoked by the owner only |
| CampaignAuthority.SecondCommandAtOneRevisionConflicts | src/campaigns/index.ts:1242-1250 | two commands sent against one campaign revision never both commit once the first has written the campaign |
| CampaignAuthority.AccessRevisionCounts | src/campaigns/persistence.ts:683-732 | the access revision counts the committed writes of the campaign other than metadata |
| CampaignAuthority.StaleReviewNeverCommits | src/campaigns/invitations.ts:820-826 | an invitation reviewed before any change that bears on access can no longer be accepted or declined |
| CampaignAuthority.StalePlacementNeverCommits | src/characters/campaignPlacement.ts:375-380 | a placement authorized under an ended membership generation never commits, even after a rejoin |
| CampaignAuthority.ClaimUsesUpTheDesignation | src/characters/campaignPlacement.ts:1049-1058 | until designated anew a member who claimed a sheet cannot claim it again |
| CampaignLaws.GrantedIff | src/campaigns/index.ts:1173-2048 | for all sixteen commands: granted if and only if standing, rows, revisions, generation and limits are as the command asks, in no order |
| CampaignLaws.OutsidersLearnNothing | src/campaigns/index.ts:1217-1240 | whoever is no active member gets the same answer whatever the campaign or note holds and whether or not it exists |
| CampaignLaws.TokenUnavailableIff | src/campaigns/invitations.ts:787-826 | unavailable if and only if the campaign is not active or no pending unexpired invitation to it has the token |
| CampaignLaws.StaleRequestsConflict | src/campaigns/index.ts:1242-1250 | what would be granted with the revisions and generation of now is a conflict with any others |
| CampaignRefusals.RefusalsSayWhy | src/campaigns/index.ts:1173-2048 | which of the five outcomes every command meets: done, not found, bad request, unavailable, conflict, each with its reason |
| CampaignEffects.MembershipRowsMove | src/campaigns/persistence.ts:747-763 | over all steps: role, status and generation of every membership row after it, command by command; nothing else moves any |
| CampaignEffects.RolesComeFromCommands | src/campaigns/persistence.ts:1197-1230 | a role changes only by a change of role or an acceptance, and to the role named or offered |
| CampaignEffects.AcceptanceGivesTheRoleIssued | src/campaigns/invitations.ts:838-852 | over any run from issue to acceptance, rotations included, whoever accepts is then active with the role the invitation was issued with |
| CampaignEffects.CampaignRowsMove | src/campaigns/persistence.ts:698-732 | the pinned version never changes; only lifecycle commands open and close a campaign, and as named |
| CampaignEffects.InvitationRowsMove | src/campaigns/persistence.ts:1098-1170 | over all steps: every field of every invitation row after it; used up once, with its user and the generation begun |
| CampaignEffects.NoteRowsMove | src/campaigns/persistence.ts:1360-1389 | over all commands: every field of every note after it; a departure takes the member's grants and only a replacement gives any |
| CampaignEffects.SheetRowsMove | src/characters/campaignPlacement.ts:533-1092 | over all commands but removal: every field of every sheet after it; owner, return owner, controllers, designations and placements as named |
| CampaignFrames.RowsAreTheEffect | src/campaigns/index.ts:1961-2006 | the rows a command's statements write, table by table, put together are its whole effect: no row of another campaign changes |
| CampaignFrames.VerdictFrame | src/campaigns/persistence.ts:674-681 | two stores that agree on one campaign, its invitations, notes and sheets grant the same commands of it |
| CampaignFrames.RowsFrame | src/campaigns/persistence.ts:674-681 | and have them write the same rows |
| CampaignFrames.StepAgrees | src/characters/persistence.ts:404-427 | whatever locks another campaign, or none, leaves this campaign's part of every table as it was |
| Receipts.EventKeepsSound | src/campaigns/index.ts:1203-1311 | receipts and committed calls stay one to one under every interleaving |
| Receipts.ExactlyOnce | src/campaigns/persistence.ts:969-997 | each actor, kind and key commits at most one mutation, also across campaigns, and its receipt names that one |
| Receipts.RepeatChangesNothing | src/campaigns/index.ts:847-866 | a receipt is never overwritten, and no later step of a call with its key changes the store |
| Receipts.RaceNeedsDifferentLocks | src/campaigns/index.ts:1285-1300 | the conflict at commit only meets calls that share no campaign lock |
| Receipts.LockExcludes | src/campaigns/persistence.ts:674-681 | at most one call is inside a campaign's lock |
| Receipts.GrantedStaysGranted | src/campaigns/index.ts:1209-1275 | what was granted under the lock is still granted, and what was written is what would be written now, whatever has committed in between, until the call commits |
| Receipts.InterleavingsAreSerial | src/campaigns/index.ts:1203-1311 | with other calls coming between look-up, lock, re-check, decision, each table's writes and commit, the store is that of a serial run of the committed commands, so the invariant holds and revisions count them |
| ReceiptAnswers.AnswersAreAboutTheSameInput | src/campaigns/index.ts:847-866 | under every interleaving a replay names a committed call of the same key and input, a mismatch one of the same key and other input |
| ReceiptAnswers.RepeatIsAnsweredByTheReceipt | src/campaigns/index.ts:847-866 | before the lock, under it and at the commit alike: mismatch for other input, replay before the receipt expires, expired from then on |
| ReceiptAnswers.CommitLeavesItsReceipt | src/campaigns/index.ts:1277-1300 | the receipt keeps input, call, lock and expiry, and no other receipt moves |
| ReceiptAnswers.RefusalIsTheVerdict | src/campaigns/index.ts:1209-1275 | what is refused under the lock is refused for the reason that holds at that moment |
| ReceiptAnswers.LookUpsRefuse | src/campaigns/invitations.ts:787-806 | before any lock only a missing note and a token no invitation of the campaign has are refused |
| ReceiptAnswers.NoCampaignToLock | src/campaigns/invitations.ts:800-826 | without a campaign row to lock the answer is not found, or unavailable for a token |
| ExecutionLease.Executions.ClaimExecution | src/characters/idempotency.ts:48-119 | a fresh key is claimed; otherwise mismatch, replay, expired, in progress or a takeover that keeps the execution id |
| ExecutionLease.Executions.CommitExecution | src/characters/persistence.ts:968-980 | the status under the row lock decides whether the effect is applied at all, and a command denied after that leaves the row pending |
| ExecutionLease.Executions.FindExecution | src/characters/persistence.ts:972-976 | finds the row of an execution id if there is one |
| ExecutionLease.EffectAtMostOnce | src/characters/idempotency.ts:128-188 | however many callers hold a key's execution, one result is recorded, replays return that one, and the key is never claimed again |
| ExecutionLease.GrantsOfAKey | src/characters/idempotency.ts:100-112 | all grants of a key carry one execution id, and a later grant waits until every earlier lease has ended |
| ExecutionLease.CompletedStays | src/characters/idempotency.ts:89-96 | a completed row never changes, whatever late holders do |
| ExecutionLease.ClaimsAreAnsweredRightly | src/characters/idempotency.ts:37-119 | each answer if and only if: other input, a pending claim whose lease runs, a result not yet or already expired, none of these |
| ExecutionLease.ClaimLeaves | src/characters/idempotency.ts:48-112 | only a granted claim writes, its own row: pending, leased and kept for the times asked, with the execution id of the key |
| ExecutionLease.CommitLeaves | src/characters/persistence.ts:968-980 | a commit writes result and expiry into the pending row of its execution and nothing else anywhere |
| ExecutionLease.CommittedKeyAnswers | src/characters/idempotency.ts:84-96 | over every run after a commit its key answers with its result until it expires, says then that it has expired, and refuses other input throughout |
| PushLineage.RollTable.FindChild | src/characters/push.ts:176-247 | reports whether a roll already has a pushed child |
| PushLineage.RollTable.PrepareCommit | src/characters/push.ts:137-248 | the commit-time guards in order, with the audience narrowed to the parent's and the default (`PushLineage.PushedRollIsOpenToBoth`) |
| PushLineage.RollTable.SaveRoll | src/characters/push.ts:249-292 | saves exactly the prepared row |
| PushLineage.AttemptKeepsLineage | src/characters/push.ts:137-292 | every attempt, saved or refused, keeps the lineage |
| PushLineage.PathIsChain | src/characters/push.ts:176-247 | a roll's ancestors are attempts 0 to its own, at most the limit, under one root, context and principal, with audiences at least as wide |
| PushLineage.RollsUnderOneRootFormALine | src/characters/push.ts:176-247 | rolls under one root lie on one line |
| PushLineage.AttemptsAreUnique | database/schema.sql:380-381 | an attempt number identifies a roll of its root |
| PushLineage.ReadersOfAChildReadItsAncestors | src/campaigns/policy.ts:168-181 | who may read a roll may read every roll it was pushed from |
| PushLineage.ReachableRollsFormChains | src/characters/push.ts:137-292 | all of it for every store reachable from the empty one |
| PushLineage.PusherMayReadTheChild | src/characters/push.ts:103-131 | a saved push is readable by its maker |
| PushLineage.PushedRollIsOpenToBoth | src/characters/push.ts:124-131 | a pushed roll may be read by exactly those who may read its parent and a roll of the default in force; a first roll by the readers of the default |
| PushLineage.ReadersOfAChain | src/characters/push.ts:231-247 | over every run of attempts a roll may be read by exactly those who may read a roll of its principal under every default in force when a roll of its chain was saved |
| PushLineage.SavedIff | src/characters/push.ts:137-248 | an attempt with a new id is saved if and only if the sheet is current and it is a proper first roll, or the next push of an unpushed roll open to the actor then and now |
| PushLineage.RefusalsSayWhy | src/characters/push.ts:155-247 | when a refusal is a conflict, a consumed parent, or a missing roll |
| PushLineage.HiddenRollsLookMissing | src/characters/push.ts:207-212 | a roll the actor may not read is refused as one that is not there |
| PushLineage.SavedRollCanBePushed | src/characters/push.ts:176-248 | who has just saved a roll with attempts left, and is a member or the owner, can push it |
| RateLimiter.NoWindowHoldsMore | src/campaigns/invitations.ts:186-213 | admissions further apart in a bucket's history than the limit are at least a window apart in time |
| RateLimiter.PrunedCountsWindow | src/campaigns/invitations.ts:205-208 | the pruned bucket holds exactly the admissions inside the window |
| RateLimiter.RecentCounts | src/campaigns/invitations.ts:205-208 | the count is that of the hits strictly after the cutoff: one exactly a window old no longer counts |
| RateLimiter.AdmitOne | src/campaigns/invitations.ts:208-210 | pushing an admitted hit keeps the bucket a suffix of its history and the history's spacing |
| RateLimiter.BucketCountsWindow | src/campaigns/invitations.ts:205-210 | while the clock does not go back the pruned bucket has as many hits as were admitted in the last window |
| RateLimiter.Limiter.Prune | src/campaigns/invitations.ts:205-207 | drops exactly the hits outside the window |
| RateLimiter.Limiter.OpenBucket | src/campaigns/invitations.ts:196-204 | a new key joins last, and past the bound the oldest leaves |
| RateLimiter.Limiter.Check | src/campaigns/invitations.ts:186-213 | the key's own bucket, pruned from the front, decides and keeps the admitted hit; while the clock has not gone back that is whether fewer than the limit were admitted in the last window since the bucket was made; no other bucket forgets anything |
| ContentPages.QueryVisibilityIsPolicy | src/campaigns/persistence.ts:557-567 | the query's predicate and the policy agree for every active member |
| ContentPages.PageIsSlice | src/campaigns/persistence.ts:1404-1441 | a page after a cursor is the next slice of the reader's ordered listing, also when many rows share a millisecond |
| ContentPages.NextPage | src/campaigns/content.ts:971-986 | each query yields the next slice of the listing, and says it is the last exactly when nothing follows |
| ContentPages.Drain | src/campaigns/content.ts:965-989 | the loop ends and yields the whole listing, nothing skipped or repeated |
| ContentPages.ListingIsExactlyTheReadableRows | src/campaigns/policy.ts:100-117 | the listing holds each active row the member may read once, newest first |
| ContentPages.ListingIsNewestFirst | src/campaigns/persistence.ts:1404-1441 | later rows were created in the same or an earlier millisecond, and within one millisecond have the smaller id |
| CanonicalJson.SortThenValues | src/campaigns/content.ts:235-238 | sorting before or after rewriting the values gives the same object |
| CanonicalJson.ArrangePreserves | src/campaigns/content.ts:232-241 | in either order, every key keeps its value at every depth and every array its order |
| CanonicalJson.ArrangeIsDetermined | src/campaigns/content.ts:232-241 | in either order, the output depends on nothing but what the value says |
| CanonicalJson.CanonicalIffSameMeaning | src/campaigns/content.ts:227-241 | two values have equal output if and only if they differ in key order only |
| CanonicalJson.CanonicalizeIdempotent | src/campaigns/content.ts:232-241 | normalizing twice is normalizing once |
| JsonRoundTrip.SameTextIffSame | src/campaigns/content.ts:227-231 | the text determines the value with its property order, so equal text means equal listing at every depth |
| JsonRoundTrip.ObjectSurvivesIff | src/campaigns/content.ts:227-241 | an object built in code unit order and one built in byte order list their properties alike if and only if the orders agree on the keys that are not integer-like |
| JsonRoundTrip.TextSurvivesIff | src/campaigns/content.ts:1781-1783 | normalized output has the same text before and after a jsonb column if and only if, at every depth, the orders agree on the keys that are not integer-like |
| JsonRoundTrip.RoundTripSettles | src/campaigns/content.ts:1781-1783 | what came out of the column once comes back unchanged, says the same and normalizes to the same |
| JsonRoundTrip.AsciiTextSurvives | src/campaigns/content.ts:1781-1783 | with ASCII keys the text always survives |
| JsonRoundTrip.AnAccentedKeyMoves | src/campaigns/content.ts:227-241 | with one accented key and a plain one of two letters it does not |
| JsonRoundTrip.PromisedOrderIff | src/campaigns/content.ts:227-241 | keys come out by byte length and bytes if and only if the orders agree on the keys that are not integer-like and every integer-like key sorts before every other |
| JsonKeys.KeyLessIff | src/campaigns/content.ts:235-238 | the shorter code comes first, and of two equally long ones that with the smaller unit at the first difference |
| JsonKeys.UnitsOfAScalar | src/campaigns/content.ts:235-238 | the comparator's units are UTF-16: one unit, or a surrogate pair that decodes to the value (section 2.1 of RFC 2781) |
| JsonKeys.BytesOfAScalar | src/campaigns/content.ts:227-231 | jsonb's bytes are UTF-8: as few as the value needs, and they decode to it (section 3 of RFC 3629) |
| JsonKeys.IntegerLikeIff | src/campaigns/content.ts:238 | the integer-like keys are exactly the decimal numerals of the numbers below 2^32 - 1 |
| JsonKeys.ObjectsListIntegersFirst | src/campaigns/content.ts:238 | whatever precedes an integer-like key in a rebuilt object is the numeral of a smaller number |

## Left out

- HTTP routes, sessions, tokens, environment parsing, scripts and test configuration: no property of this kind.
- PNG decoding and encoding, virus scanning, file names, SHA-256 and JSON parsing are taken as given functions; a composite is the pair of background bytes and fog that determines it, and `FogMask` says what it looks like.
- Fog geometry is in exact reals; floating-point rounding of pixel centres and distances is not modelled.
- PostgreSQL itself: guarded updates, row locks and ON CONFLICT are map operations, and COMMIT whose outcome is lost does not occur.
- In `Receipts` a decision is one step, made from what is committed at that moment, and so is each table's share of the writes; re-authorization of replays is not part of it. Placement commands and edits of sheets and notes, which lock the same campaign row, are single steps there.
- In `CacheRuns` a request's credential check is left out: it can only refuse, and what is proved is about images that are served.
- Receipts cover the campaign, invitation and grant commands; scene and media receipts follow the same protocol and are not repeated.
- Placement commands claim their key and commit in one transaction; `ExecutionLease` models the more general form whose work runs between two transactions.
- Content updates, deletion and recovery, and sheet edits made by character commands, are environment steps that may change everything but grants and custody.
- Keys are sequences of Unicode scalar values without lone surrogates, which jsonb cannot store; numbers and text are opaque values, and a text is its sequence of JSON tokens.
- Listener callbacks of the hub do not call back into the hub while it iterates.
- NeverSilentlyDropped: excludes runs in which the hub is closed at shutdown, which drops its subscribers without telling them; from then on `ClosedHubStaysQuiet` holds.
- The retry delay as a function of the attempt, and the isolation of subscribers that throw.
- In `StreamRuns` an image is gone by a step of its own, at any moment: the commands do not delete an image in use, but a stream may read its scene before a background change and the image after its deletion.
- Input shape checks other than the fog op's, error texts, dates, DTO mapping and audit rows.
- Proposals, item, entry and portrait images, the scene library and display pairing: they repeat the receipt and lock pattern.
