/** What submissions conserve: idempotency keys, active executions and handoff versions. */
module Conservation {
  import opened Wrappers
  import opened Capability
  import opened Tables
  import opened Submission
  import opened Protocol
  import opened CatalogSafety
  import LifecycleSafety

  ghost predicate KeysUnique(c: Catalog) {
    forall i, j :: 0 <= i < j < |c.userMessages| ==>
      !SameKey(c.userMessages[i], c.userMessages[j].conversationId, c.userMessages[j].idempotencyKey)
  }

  ghost predicate EveryMessageRuns(c: Catalog) {
    forall m :: 0 <= m < |c.userMessages| ==> Runs(c, m)
  }

  predicate Runs(c: Catalog, m: Id) {
    exists e :: 0 <= e < |c.executions| && c.executions[e].userMessageId == m
  }

  predicate SameWork(a: Execution, b: Execution) {
    a.userMessageId == b.userMessageId && a.providerId == b.providerId
  }

  ghost predicate OneActive(c: Catalog, life: seq<Life>)
    requires |life| == |c.executions|
  {
    forall i, j :: 0 <= i < j < |life| && SameWork(c.executions[i], c.executions[j]) ==>
      !(Active(life[i].state) && Active(life[j].state))
  }

  /** The versions of a conversation's capsules, in order of creation. */
  function Versions(handoffs: seq<Handoff>, conversationId: Id): seq<nat> {
    if handoffs == [] then []
    else
      var earlier := Versions(handoffs[..|handoffs| - 1], conversationId);
      var last := handoffs[|handoffs| - 1];
      if last.conversationId == conversationId then earlier + [last.version] else earlier
  }

  function UpTo(n: nat): seq<nat> {
    if n == 0 then [] else UpTo(n - 1) + [n]
  }

  ghost predicate VersionsDense(c: Catalog) {
    && (forall h :: 0 <= h < |c.handoffs| ==> c.handoffs[h].conversationId < |c.conversations|)
    && (forall i :: 0 <= i < |c.conversations| ==> Versions(c.handoffs, i) == UpTo(c.conversations[i].handoffSequence))
  }

  ghost predicate Conserved(w: World) {
    && Sized(w)
    && KeysUnique(w.catalog) && EveryMessageRuns(w.catalog)
    && OneActive(w.catalog, w.runtime.life)
    && VersionsDense(w.catalog)
  }

  // ---------- handoff versions ----------

  lemma {:induction false} VersionsAppend(handoffs: seq<Handoff>, h: Handoff, conversationId: Id)
    ensures Versions(handoffs + [h], conversationId) ==
      Versions(handoffs, conversationId) + (if h.conversationId == conversationId then [h.version] else [])
  {
    assert (handoffs + [h])[..|handoffs|] == handoffs;
  }

  lemma {:induction false} NoVersions(handoffs: seq<Handoff>, conversationId: Id)
    requires forall h :: 0 <= h < |handoffs| ==> handoffs[h].conversationId != conversationId
    ensures Versions(handoffs, conversationId) == []
  {
    if handoffs != [] {
      NoVersions(handoffs[..|handoffs| - 1], conversationId);
    }
  }

  /** Only the counter of the handoff's conversation moves, and by one with its new capsule. */
  ghost predicate CountsHandoff(c: Catalog, c': Catalog) {
    && |c'.conversations| == |c.conversations|
    && ((c'.handoffs == c.handoffs
         && forall i :: 0 <= i < |c.conversations| ==> c'.conversations[i].handoffSequence == c.conversations[i].handoffSequence)
      || (|c'.handoffs| == |c.handoffs| + 1 && c'.handoffs[..|c.handoffs|] == c.handoffs
         && var h := c'.handoffs[|c.handoffs|];
         && h.conversationId < |c.conversations|
         && h.version == c.conversations[h.conversationId].handoffSequence + 1
         && forall i :: 0 <= i < |c.conversations| ==>
           c'.conversations[i].handoffSequence == c.conversations[i].handoffSequence + (if i == h.conversationId then 1 else 0)))
  }

  lemma CountsDense(c: Catalog, c': Catalog)
    requires VersionsDense(c) && CountsHandoff(c, c')
    ensures VersionsDense(c')
  {
    if c'.handoffs != c.handoffs {
      var h := c'.handoffs[|c.handoffs|];
      assert c'.handoffs == c.handoffs + [h];
      forall i | 0 <= i < |c'.conversations| ensures Versions(c'.handoffs, i) == UpTo(c'.conversations[i].handoffSequence) {
        VersionsAppend(c.handoffs, h, i);
      }
    }
  }

  lemma SubmissionCounts(w: World, s: Step)
    requires CatalogInv(w) && (s.Queue? || s.Retry?)
    ensures CountsHandoff(w.catalog, Apply(w, s).catalog)
  {
    if s.Queue? {
      assert Apply(w, s) == Commit(w, QueueTx(w, s.q));
      QueueCounts(w, s.q);
    } else {
      assert Apply(w, s) == Commit(w, RetryTx(w, s.r));
      RetryCounts(w, s.r);
    }
  }

  lemma QueueCounts(w: World, q: QueueInput)
    requires Sized(w)
    ensures QueueTx(w, q).Some? ==> CountsHandoff(w.catalog, QueueTx(w, q).value.world.catalog)
  {
  }

  lemma RetryCounts(w: World, r: RetryInput)
    requires CatalogInv(w)
    ensures RetryTx(w, r).Some? ==> CountsHandoff(w.catalog, RetryTx(w, r).value.world.catalog)
  {
    if r.executionId < |w.catalog.executions| {
      assert Linked(w.catalog, w.catalog.executions[r.executionId]);
    }
  }

  // ---------- keys and active executions ----------

  /** Appends at most one message with a new key and at most one execution, of work that nothing active does. */
  ghost predicate AddsFresh(w: World, w': World) {
    && Sized(w) && Sized(w')
    && ((w'.catalog.userMessages == w.catalog.userMessages && w'.catalog.executions == w.catalog.executions && w'.runtime.life == w.runtime.life)
      || (|w'.catalog.executions| == |w.catalog.executions| + 1
        && w'.catalog.executions[..|w.catalog.executions|] == w.catalog.executions
        && w'.runtime.life == w.runtime.life + [QUEUED]
        && var e := w'.catalog.executions[|w.catalog.executions|];
        && e.userMessageId < |w'.catalog.userMessages|
        && (forall i :: 0 <= i < |w.runtime.life| ==> !ActiveFor(w.catalog, w.runtime.life, i, e.userMessageId, e.providerId))
        && (w'.catalog.userMessages == w.catalog.userMessages
          || (|w'.catalog.userMessages| == |w.catalog.userMessages| + 1
            && w'.catalog.userMessages[..|w.catalog.userMessages|] == w.catalog.userMessages
            && e.userMessageId == |w.catalog.userMessages|
            && var m := w'.catalog.userMessages[|w.catalog.userMessages|];
            && forall i :: 0 <= i < |w.catalog.userMessages| ==> !SameKey(w.catalog.userMessages[i], m.conversationId, m.idempotencyKey)))))
  }

  lemma QueueAddsFresh(w: World, q: QueueInput)
    requires CatalogInv(w)
    ensures AddsFresh(w, Commit(w, QueueTx(w, q)))
  {
    forall i | 0 <= i < |w.runtime.life| ensures Linked(w.catalog, w.catalog.executions[i]) {}
  }

  lemma RetryAddsFresh(w: World, r: RetryInput)
    requires CatalogInv(w)
    ensures AddsFresh(w, Commit(w, RetryTx(w, r)))
  {
    if r.executionId < |w.catalog.executions| {
      assert Linked(w.catalog, w.catalog.executions[r.executionId]);
    }
  }

  lemma FreshConserves(w: World, w': World)
    requires Conserved(w) && AddsFresh(w, w')
    ensures KeysUnique(w'.catalog) && EveryMessageRuns(w'.catalog) && OneActive(w'.catalog, w'.runtime.life)
  {
    var c, c' := w.catalog, w'.catalog;
    forall m | 0 <= m < |c'.userMessages| ensures Runs(c', m) {
      if m < |c.userMessages| {
        assert Runs(c, m);
        var e :| 0 <= e < |c.executions| && c.executions[e].userMessageId == m;
        assert c'.executions[e].userMessageId == m;
      } else {
        assert c'.executions[|c.executions|].userMessageId == m;
      }
    }
    var life, life' := w.runtime.life, w'.runtime.life;
    forall i, j | 0 <= i < j < |life'| && SameWork(c'.executions[i], c'.executions[j])
      ensures !(Active(life'[i].state) && Active(life'[j].state))
    {
      assert i < |life| && c'.executions[i] == c.executions[i] && life'[i] == life[i];
      if j < |life| {
        assert c'.executions[j] == c.executions[j] && life'[j] == life[j];
      } else {
        assert !ActiveFor(c, life, i, c'.executions[j].userMessageId, c'.executions[j].providerId);
      }
    }
  }

  lemma StepConserves(w: World, s: Step)
    requires LifecycleSafety.Inv(w) && CatalogInv(w) && Conserved(w)
    ensures Conserved(Apply(w, s))
  {
    if s.Queue? || s.Retry? {
      SubmissionConserves(w, s);
    } else if s.CreateConversation? || s.CreateTask? {
      CreationConserves(w, s);
    } else {
      MailStays(w, s);
      LifecycleSafety.StepForward(w, s);
      OtherConserves(w, Apply(w, s));
    }
  }

  lemma SubmissionConserves(w: World, s: Step)
    requires CatalogInv(w) && Conserved(w) && (s.Queue? || s.Retry?)
    ensures Conserved(Apply(w, s))
  {
    if s.Queue? {
      QueueAddsFresh(w, s.q);
    } else {
      RetryAddsFresh(w, s.r);
    }
    FreshConserves(w, Apply(w, s));
    SubmissionCounts(w, s);
    CountsDense(w.catalog, Apply(w, s).catalog);
  }

  lemma CreationConserves(w: World, s: Step)
    requires Conserved(w) && (s.CreateConversation? || s.CreateTask?)
    ensures Conserved(Apply(w, s))
  {
    NoVersions(w.catalog.handoffs, |w.catalog.conversations|);
    assert forall m :: Runs(w.catalog, m) ==> Runs(Apply(w, s).catalog, m);
  }

  lemma OtherConserves(w: World, w': World)
    requires Conserved(w) && Sized(w') && w'.catalog == w.catalog && LifecycleSafety.RowsForward(w, w')
    ensures Conserved(w')
  {
  }

  lemma {:induction false} RunConserves(w: World, run: seq<Step>)
    requires LifecycleSafety.Inv(w) && CatalogInv(w) && Conserved(w)
    ensures Conserved(Exec(w, run))
    decreases |run|
  {
    if run != [] {
      StepConserves(w, run[0]);
      StepCatalog(w, run[0]);
      LifecycleSafety.StepInv(w, run[0]);
      RunConserves(Apply(w, run[0]), run[1..]);
    }
  }

  // ---------- main results ----------

  /**
   In every reachable world an idempotency key names at most one user message of its
   conversation, a message and provider have at most one active execution, and the capsules
   of a conversation are numbered 1, 2, ... up to its counter, in order.
   */
  lemma SubmissionsConserve(run: seq<Step>)
    ensures var w := Exec(EMPTY, run);
      && KeysUnique(w.catalog)
      && OneActive(w.catalog, w.runtime.life)
      && (forall i :: 0 <= i < |w.catalog.conversations| ==>
           Versions(w.catalog.handoffs, i) == UpTo(w.catalog.conversations[i].handoffSequence))
  {
    RunConserves(EMPTY, run);
  }

  /**
   A replay: once a queue has committed, any later submission of its key to its conversation
   commits as a duplicate, returns an execution of the original message, and creates nothing.
   */
  lemma ReplayCreatesNothing(before: seq<Step>, q: QueueInput, after: seq<Step>, again: QueueInput)
    requires QueueTx(Exec(EMPTY, before), q).Some?
    requires again.conversationId == q.conversationId && again.idempotencyKey == q.idempotencyKey
    requires ProviderModeCapability(again.providerId, again.mode).Some?
    ensures var first := QueueTx(Exec(EMPTY, before), q).value;
      var w := Exec(EMPTY, before + [Queue(q)] + after);
      && first.executionId < |first.world.catalog.executions|
      && IsReplay(w, first.world.catalog.executions[first.executionId].userMessageId, again, QueueTx(w, again))
  {
    var w0 := Exec(EMPTY, before);
    RunCatalog(EMPTY, before);
    RunConserves(EMPTY, before);
    LifecycleSafety.RunInv(EMPTY, before);
    ReplayAfter(w0, q, after, again);
    ExecMiddle(before, q, after);
  }

  lemma ExecMiddle(before: seq<Step>, q: QueueInput, after: seq<Step>)
    requires QueueTx(Exec(EMPTY, before), q).Some?
    ensures Exec(EMPTY, before + [Queue(q)] + after) == Exec(QueueTx(Exec(EMPTY, before), q).value.world, after)
  {
    ExecConcat(EMPTY, before, [Queue(q)]);
    ExecOne(Exec(EMPTY, before), Queue(q));
    assert Apply(Exec(EMPTY, before), Queue(q)) == Commit(Exec(EMPTY, before), QueueTx(Exec(EMPTY, before), q));
    ExecConcat(EMPTY, before + [Queue(q)], after);
  }

  /** Commits as a duplicate of message `m` and changes nothing but the conversation's lock counter. */
  ghost predicate IsReplay(w: World, m: Id, again: QueueInput, replay: Option<Committed>) {
    && replay.Some? && replay.value.duplicate
    && replay.value.executionId < |w.catalog.executions|
    && w.catalog.executions[replay.value.executionId].userMessageId == m
    && again.conversationId < |w.catalog.conversations|
    && replay.value.world == w.(catalog := w.catalog.(conversations := w.catalog.conversations[again.conversationId :=
         w.catalog.conversations[again.conversationId].(sequence := w.catalog.conversations[again.conversationId].sequence + 1)]))
  }

  lemma ReplayAfter(w: World, q: QueueInput, after: seq<Step>, again: QueueInput)
    requires LifecycleSafety.Inv(w) && CatalogInv(w) && Conserved(w) && QueueTx(w, q).Some?
    requires again.conversationId == q.conversationId && again.idempotencyKey == q.idempotencyKey
    requires ProviderModeCapability(again.providerId, again.mode).Some?
    ensures var first := QueueTx(w, q).value;
      && first.executionId < |first.world.catalog.executions|
      && IsReplay(Exec(first.world, after), first.world.catalog.executions[first.executionId].userMessageId,
                  again, QueueTx(Exec(first.world, after), again))
  {
    var w1 := Apply(w, Queue(q));
    QueueKey(w, q);
    LifecycleSafety.StepInv(w, Queue(q));
    StepCatalog(w, Queue(q));
    StepConserves(w, Queue(q));
    RunCatalog(w1, after);
    RunConserves(w1, after);
    ReplayFrom(Exec(w1, after), w1.catalog.executions[QueueTx(w, q).value.executionId].userMessageId, again);
  }

  /** The execution a committed queue returns belongs to the message with the submitted key. */
  lemma QueueKey(w: World, q: QueueInput)
    requires CatalogInv(w) && QueueTx(w, q).Some?
    ensures var r := QueueTx(w, q).value;
      var c := r.world.catalog;
      && r.executionId < |c.executions|
      && c.executions[r.executionId].userMessageId < |c.userMessages|
      && SameKey(c.userMessages[c.executions[r.executionId].userMessageId], q.conversationId, q.idempotencyKey)
      && q.conversationId < |c.conversations|
  {
    if QueueTx(w, q).value.duplicate {
      assert AllLinked(w.catalog);
    }
  }

  lemma ReplayFrom(w: World, m: Id, again: QueueInput)
    requires Conserved(w) && m < |w.catalog.userMessages|
    requires SameKey(w.catalog.userMessages[m], again.conversationId, again.idempotencyKey)
    requires again.conversationId < |w.catalog.conversations|
    requires ProviderModeCapability(again.providerId, again.mode).Some?
    ensures IsReplay(w, m, again, QueueTx(w, again))
  {
    var conversation := w.catalog.conversations[again.conversationId];
    var locked := w.catalog.(conversations :=
      w.catalog.conversations[again.conversationId := conversation.(sequence := conversation.sequence + 1)]);
    assert FindMessage(locked, again.conversationId, again.idempotencyKey) == Some(m);
    assert Runs(w.catalog, m);
  }
}
