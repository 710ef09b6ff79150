/** What each step does to the cached files, the renders and the requests. */
module CacheLaws {
  import opened Wrappers
  import opened DerivativeService
  import opened CacheRuns
  import L = SceneLibrary

  // ---------- files ----------

  /** A finished write is renamed into place. */
  ghost predicate Stores(w: World, step: Step, k: Key)
    requires Enabled(w, step)
  {
    step.Write? && step.renamed && w.service.tasks[step.t].key == k
  }

  /** A render prunes its scene's older revisions; single files go missing; a revocation purges whole scenes. */
  ghost predicate Removes(w: World, step: Step, k: Key)
    requires Enabled(w, step)
  {
    match step
    case Prune(t) =>
      var kept := w.service.tasks[t].key;
      k.scene == kept.scene && k.imageRevision < kept.imageRevision
    case Evict(key) => k == key
    case Purge(scenes) => k.scene in scenes
    case _ => false
  }

  predicate TouchesFiles(step: Step) { step.Write? || step.Prune? || step.Evict? || step.Purge? }

  lemma OtherStepsKeepFiles(w: World, step: Step)
    requires Enabled(w, step) && !TouchesFiles(step)
    ensures Next(w, step).service.cache == w.service.cache
  {
  }

  lemma CacheMoves(w: World, step: Step, k: Key)
    requires Enabled(w, step)
    ensures var before, after := w.service.cache, Next(w, step).service.cache;
      && (k in after <==> (k in before || Stores(w, step, k)) && !Removes(w, step, k))
      && (Stores(w, step, k) ==> k in after && after[k] == w.service.tasks[step.t].source)
      && (k in after && !Stores(w, step, k) ==> k in before && after[k] == before[k])
  {
    if !TouchesFiles(step) {
      OtherStepsKeepFiles(w, step);
    }
  }

  /** A render that could write its file leaves it in the cache, with the image its requests are handed. */
  lemma RenderedImageIsKept(w: World, t: nat)
    requires Enabled(w, Write(t, true))
    ensures var v := Next(w, Write(t, true));
      Enabled(v, Prune(t)) && Enabled(Next(v, Prune(t)), Finish(t)) &&
      var done := Next(Next(v, Prune(t)), Finish(t));
      var task := w.service.tasks[t];
      && task.key in done.service.cache && done.service.cache[task.key] == task.source
      && done.service.tasks[t].phase == Settled(Some(task.source))
  {
  }

  /** A second look before rendering settles for the file if there is one by now; a failed render has no image. */
  lemma RendersMove(w: World, step: Step)
    requires Enabled(w, step) && (step.LookAgain? || step.Fail?)
    ensures var key := w.service.tasks[step.t].key;
      Next(w, step).service.tasks[step.t].phase ==
        if step.Fail? then Settled(None)
        else if key in w.service.cache then Settled(Some(w.service.cache[key]))
        else Rendering
  {
  }

  // ---------- requests ----------

  predicate Names(found: Option<L.Scene>, rev: nat) { found.Some? && found.value.imageRevision == rev }

  /** A row read came back: refused if the scene is gone or has moved on, and after the render served if not. */
  lemma ReadDecides(w: World, step: Step)
    requires Enabled(w, step) && (step.Resume? || step.Decide?)
    ensures var q, p := w.requests[step.r], Next(w, step).requests[step.r];
      var named := Names(w.loads[q.load].progress.found, if step.Resume? then q.rev else q.key.imageRevision);
      && (p.Refused? <==> !named)
      && (step.Decide? && named ==> p.ServedRender? && p.key == q.key && p.image == q.image)
      && (step.Resume? && named ==> p.Resolved? && Some(p.row) == w.loads[q.load].progress.found)
  {
  }

  /** An orphaned background is refused although rows and files of the scene are there; so are bytes gone missing. */
  lemma OrphansAreRefused(w: World, step: Step)
    requires Enabled(w, step) && (step.CheckMedia? || step.ReadBytes?)
    ensures var q, p := w.requests[step.r], Next(w, step).requests[step.r];
      p.Refused? <==>
        if step.CheckMedia?
        then q.row.background !in w.lib.media || w.lib.media[q.row.background].campaign != q.row.campaign
        else q.row.background !in w.disk
  {
  }

  /** The cached file is served if there is one; what the awaited render came to is handed on, and a failure refused. */
  lemma ImagesAreHandedOn(w: World, step: Step)
    requires Enabled(w, step) && (step.ReadCache? || step.Collect?)
    ensures var q, p := w.requests[step.r], Next(w, step).requests[step.r];
      if step.ReadCache? then
        && (p.ServedHit? <==> q.key in w.service.cache) && !p.Refused?
        && (p.ServedHit? ==> p.key == q.key && p.image == w.service.cache[q.key])
      else
        && (p.Refused? <==> w.service.tasks[q.task].phase == Settled(None)) && (p.Refused? || p.Rendered?)
        && (p.Rendered? ==> p.key == q.key && w.service.tasks[q.task].phase == Settled(Some(p.image)))
  {
  }

  /** An answered request keeps its answer. */
  lemma AnswersStand(w: World, step: Step, r: nat)
    requires Enabled(w, step) && r < |w.requests| && (IsServed(w.requests[r]) || w.requests[r].Refused?)
    ensures r < |Next(w, step).requests| && Next(w, step).requests[r] == w.requests[r]
  {
  }
}
