/** What callers are told: an answer from a receipt is about the very input that committed, over every interleaving. */
module ReceiptAnswers {
  import opened Wrappers
  import C = CampaignRows
  import opened Receipts

  predicate LooksForReceipt(e: Event) { e.PreCheck? || e.ReCheck? || e.Commit? }

  /** Once its key has a receipt a call is answered by it: other input, the call that committed, or too late. */
  lemma RepeatIsAnsweredByTheReceipt(w: World, e: Event)
    requires Enabled(w, e) && LooksForReceipt(e) && w.calls[e.i].key in w.receipts
    ensures var receipt := w.receipts[w.calls[e.i].key];
      Next(w, e).calls[e.i].phase == Answered(
        if w.calls[e.i].hash != receipt.hash then Mismatch
        else if e.now < receipt.expires then Replayed(receipt.call)
        else Expired)
  {
  }

  /** A commit leaves the receipt of its call: its input, its lock and for how long it will answer. */
  lemma CommitLeavesItsReceipt(w: World, e: Event)
    requires Enabled(w, e) && e.Commit? && w.calls[e.i].key !in w.receipts
    ensures var call, v := w.calls[e.i], Next(w, e);
      && v.calls[e.i].phase == Answered(Committed) && call.key in v.receipts
      && v.receipts[call.key] == Receipt(call.hash, e.expires, e.i, call.phase.lock)
      && (forall k :: k in v.receipts && k != call.key ==> k in w.receipts && v.receipts[k] == w.receipts[k])
  {
  }

  /** The receipt of a key keeps the input of the call that committed. */
  ghost predicate ReceiptsKeepInput(w: World) {
    forall k {:trigger w.receipts[k]} :: k in w.receipts ==>
      w.receipts[k].call < |w.calls| && w.calls[w.receipts[k].call].hash == w.receipts[k].hash
  }

  ghost predicate AnswerRight(w: World, i: nat, answer: Answer)
    requires i < |w.calls|
  {
    var call := w.calls[i];
    match answer
    case Replayed(j) => HasCommitted(w, j) && w.calls[j].key == call.key && w.calls[j].hash == call.hash
    case Expired => call.key in w.receipts && w.receipts[call.key].hash == call.hash
    case Mismatch => call.key in w.receipts && w.receipts[call.key].hash != call.hash
    case _ => true
  }

  ghost predicate AnswersRight(w: World) {
    forall i {:trigger w.calls[i]} ::
      0 <= i < |w.calls| && w.calls[i].phase.Answered? ==> AnswerRight(w, i, w.calls[i].phase.answer)
  }

  lemma AnswerStaysRight(w: World, v: World, i: nat, answer: Answer)
    requires Continues(w, v) && i < |w.calls| && AnswerRight(w, i, answer)
    ensures AnswerRight(v, i, answer)
  {
    assert v.calls[i] == w.calls[i].(phase := v.calls[i].phase);
    if answer.Replayed? {
      assert v.calls[answer.call] == w.calls[answer.call];
    }
  }

  lemma EventKeepsInput(w: World, e: Event)
    requires Sound(w) && ReceiptsKeepInput(w) && Enabled(w, e)
    ensures ReceiptsKeepInput(Next(w, e))
  {
    var v := Next(w, e);
    EventKeepsSound(w, e);
    if Commits(w, e) {
      CommitLeavesItsReceipt(w, e);
    }
    forall k | k in v.receipts
      ensures v.receipts[k].call < |v.calls| && v.calls[v.receipts[k].call].hash == v.receipts[k].hash
    {
      if k in w.receipts {
        var j := w.receipts[k].call;
        assert v.calls[j] == w.calls[j].(phase := v.calls[j].phase);
      }
    }
  }

  /** Only a look for a receipt gives one of these answers. */
  lemma FreshAnswer(w: World, e: Event)
    requires Sound(w) && ReceiptsKeepInput(w) && Enabled(w, e) && !e.Begin? && !e.Outside?
    ensures Next(w, e).calls[e.i].phase.Answered? ==> AnswerRight(w, e.i, Next(w, e).calls[e.i].phase.answer)
  {
    if LooksForReceipt(e) && w.calls[e.i].key in w.receipts {
      RepeatIsAnsweredByTheReceipt(w, e);
      var receipt := w.receipts[w.calls[e.i].key];
      assert HasCommitted(w, receipt.call);
    }
  }

  predicate IsAbout(e: Event, i: nat) { !e.Begin? && !e.Outside? && e.i == i }

  lemma OthersStay(w: World, e: Event, i: nat)
    requires Enabled(w, e) && !IsAbout(e, i)
    ensures i < |w.calls| ==> i < |Next(w, e).calls| && Next(w, e).calls[i] == w.calls[i]
    ensures |w.calls| <= i < |Next(w, e).calls| ==> Next(w, e).calls[i].phase == Arrived
  {
  }

  lemma EventKeepsAnswersRight(w: World, e: Event)
    requires Sound(w) && ReceiptsKeepInput(w) && AnswersRight(w) && Enabled(w, e)
    ensures AnswersRight(Next(w, e))
  {
    var v := Next(w, e);
    EventKeepsSound(w, e);
    forall i | 0 <= i < |v.calls| && v.calls[i].phase.Answered? ensures AnswerRight(v, i, v.calls[i].phase.answer) {
      if IsAbout(e, i) {
        FreshAnswer(w, e);
      } else {
        OthersStay(w, e, i);
      }
      AnswerStaysRight(w, v, i, v.calls[i].phase.answer);
    }
  }

  lemma {:induction false} RunKeepsAnswersRight(w: World, events: seq<Event>)
    requires Sound(w) && ReceiptsKeepInput(w) && AnswersRight(w) && IsRun(w, events)
    ensures Sound(Final(w, events)) && ReceiptsKeepInput(Final(w, events)) && AnswersRight(Final(w, events))
    decreases |events|
  {
    if |events| > 0 {
      EventKeepsSound(w, events[0]);
      EventKeepsInput(w, events[0]);
      EventKeepsAnswersRight(w, events[0]);
      RunKeepsAnswersRight(Next(w, events[0]), events[1..]);
    }
  }

  /**
   * Under any interleaving: a replayed call names a call with its key and its very input that committed, and a call is
   * told of a mismatch only because a call with its key and other input did.
   */
  lemma AnswersAreAboutTheSameInput(s: C.State, events: seq<Event>, i: nat)
    requires IsRun(Fresh(s), events) && i < |Final(Fresh(s), events).calls|
    requires Final(Fresh(s), events).calls[i].phase.Answered?
    ensures var w := Final(Fresh(s), events); var call := w.calls[i];
      match call.phase.answer
      case Replayed(j) => HasCommitted(w, j) && w.calls[j].key == call.key && w.calls[j].hash == call.hash
      case Mismatch => exists j: nat ::
        HasCommitted(w, j) && w.calls[j].key == call.key && w.calls[j].hash != call.hash
      case Expired => exists j: nat ::
        HasCommitted(w, j) && w.calls[j].key == call.key && w.calls[j].hash == call.hash
      case _ => true
  {
    RunKeepsAnswersRight(Fresh(s), events);
    var w := Final(Fresh(s), events);
    var call := w.calls[i];
    assert AnswerRight(w, i, call.phase.answer);
    if call.phase.answer.Mismatch? || call.phase.answer.Expired? {
      assert HasCommitted(w, w.receipts[call.key].call);
    }
  }

  /** Under the lock, what is refused is refused for the reason that holds at that moment. */
  lemma RefusalIsTheVerdict(w: World, e: Event)
    requires Enabled(w, e) && e.Decide? && !C.ByToken(w.calls[e.i].command)
    requires w.calls[e.i].phase.lock.Some? || w.calls[e.i].command.CreateCampaign?
    ensures var call, verdict := w.calls[e.i], C.Verdict(w.s, w.calls[e.i].key.actor, w.calls[e.i].command);
      var phase := Next(w, e).calls[e.i].phase;
      if verdict.Done? then phase.Writing? else phase == Answered(Refused(verdict))
  {
  }

  predicate HasToken(s: C.State, c: C.CampaignId, hash: C.TokenHash) {
    exists i :: i in s.invitations && s.invitations[i].hash == hash && s.invitations[i].campaign == c
  }

  /** Before any lock only two things are refused: a note that is not there and a token nobody has. */
  lemma LookUpsRefuse(w: World, e: Event)
    requires C.UniqueHashes(w.s.invitations) && Enabled(w, e) && e.Locate?
    ensures var cmd, phase := w.calls[e.i].command, Next(w, e).calls[e.i].phase;
      if cmd.ReplaceGrants? && cmd.content !in w.s.contents then phase == Answered(Refused(C.NotFound))
      else if C.ByToken(cmd) && !HasToken(w.s, cmd.campaign, cmd.hash) then phase == Answered(Refused(C.Unavailable))
      else phase.Seeking?
  {
    var cmd := w.calls[e.i].command;
    if C.ByToken(cmd) && HasToken(w.s, cmd.campaign, cmd.hash) {
      var i :| i in w.s.invitations && w.s.invitations[i].hash == cmd.hash &&
               w.s.invitations[i].campaign == cmd.campaign;
      assert C.HashInUse(w.s.invitations, cmd.hash) && C.WithHash(w.s.invitations, cmd.hash) == i;
    }
  }

  /** Without a campaign row to lock a command is refused: as not found, or as unavailable if it came with a token. */
  lemma NoCampaignToLock(w: World, e: Event)
    requires Enabled(w, e) && e.Decide? && w.calls[e.i].phase.lock.None? && !w.calls[e.i].command.CreateCampaign?
    ensures Next(w, e).calls[e.i].phase ==
      Answered(Refused(if C.ByToken(w.calls[e.i].command) then C.Unavailable else C.NotFound))
  {
  }
}
