/** Provider sessions: the pinned model, and which session of a provider is RUNNING. */
module Pinning {
  import opened Wrappers
  import opened Capability
  import opened Tables
  import opened Submission
  import opened Protocol
  import opened CatalogSafety

  /** Every execution, always, requests the model its provider session was pinned to at creation. */
  lemma RequestedModelIsPinned(before: seq<Step>, after: seq<Step>, i: Id)
    requires i < |Exec(EMPTY, before).catalog.executions|
    ensures var c := Exec(EMPTY, before).catalog;
      var c' := Exec(EMPTY, before + after).catalog;
      && i < |c'.executions| && c'.executions[i] == c.executions[i]
      && var session := c.executions[i].providerSessionId;
      && session < |c.providerSessions| <= |c'.providerSessions|
      && c'.providerSessions[session] == c.providerSessions[session]
      && c'.providerSessions[session].resolvedModel == c'.executions[i].requestedModel
  {
    RunCatalog(EMPTY, before);
    RunCatalog(Exec(EMPTY, before), after);
    ExecConcat(EMPTY, before, after);
    assert Linked(Exec(EMPTY, before).catalog, Exec(EMPTY, before).catalog.executions[i]);
  }

  predicate IsNewest(c: Catalog, i: Id)
    requires i < |c.providerSessions|
  {
    forall j :: i < j < |c.providerSessions| ==>
      !SamePair(c.providerSessions[j], c.providerSessions[i].conversationId, c.providerSessions[i].providerId)
  }

  /** Only the most recently started session of a conversation and provider is RUNNING. */
  ghost predicate NewestRunning(w: World) {
    && Sized(w)
    && forall i :: 0 <= i < |w.runtime.sessionStatus| && w.runtime.sessionStatus[i] == SessionRunning ==> IsNewest(w.catalog, i)
  }

  /** The success finalizer commits for an execution whose provider session is not its pair's newest. */
  predicate RevivesOlder(w: World, s: Step)
    requires Sized(w)
  {
    && s.FinalizeSuccess? && Apply(w, s).runtime.life != w.runtime.life
    && s.id < |w.catalog.executions| && w.catalog.executions[s.id].providerSessionId < |w.catalog.providerSessions|
    && !IsNewest(w.catalog, w.catalog.executions[s.id].providerSessionId)
  }

  // ---------- acquiring ----------

  /** What acquiring a session does to the table and the statuses. */
  lemma AcquireRunning(c: Catalog, status: seq<SessionStatus>, conversationId: Id, providerId: string, model: Option<string>)
    requires |status| == |c.providerSessions|
    requires forall i :: 0 <= i < |status| && status[i] == SessionRunning ==> IsNewest(c, i)
    ensures var a := Acquire(c, status, conversationId, providerId, model);
      && a.Some?
      && (forall i :: 0 <= i < |a.value.status| && a.value.status[i] == SessionRunning ==> IsNewest(a.value.catalog, i))
  {
    var latest := LatestProviderSession(c, conversationId, providerId);
    forall i | 0 <= i < |status| && status[i] == SessionRunning && SamePair(c.providerSessions[i], conversationId, providerId)
      ensures latest == Some(i)
    {
      assert IsNewest(c, i);
    }
    var a := Acquire(c, status, conversationId, providerId, model);
    if a.Some? {
      forall i | 0 <= i < |a.value.status| && a.value.status[i] == SessionRunning ensures IsNewest(a.value.catalog, i) {
        if i < |status| { assert IsNewest(c, i); }
      }
    }
  }

  /** A RUNNING session that is not the newest makes every attempt to acquire one for its pair throw. */
  lemma OlderRunningBlocks(c: Catalog, status: seq<SessionStatus>, i: Id, model: Option<string>)
    requires |status| == |c.providerSessions| && i < |status| && status[i] == SessionRunning && !IsNewest(c, i)
    requires forall j :: 0 <= j < |status| && j != i && status[j] == SessionRunning ==>
      !SamePair(c.providerSessions[j], c.providerSessions[i].conversationId, c.providerSessions[i].providerId)
    ensures Acquire(c, status, c.providerSessions[i].conversationId, c.providerSessions[i].providerId, model).None?
  {
    var latest := LatestProviderSession(c, c.providerSessions[i].conversationId, c.providerSessions[i].providerId);
    assert latest.Some? && latest.value != i;
  }

  // ---------- every step ----------

  /** The session table and statuses stay, or become what some acquisition makes of them. */
  ghost predicate KeepsOrAcquires(w: World, w': World)
    requires Sized(w)
  {
    || SessionsKept(w, w')
    || exists conversationId, providerId, model :: Acquires(w, w', conversationId, providerId, model)
  }

  predicate SessionsKept(w: World, w': World) {
    && w'.catalog.providerSessions == w.catalog.providerSessions
    && w'.runtime.sessionStatus == w.runtime.sessionStatus
  }

  predicate Acquires(w: World, w': World, conversationId: Id, providerId: string, model: Option<string>)
    requires Sized(w)
  {
    var a := Acquire(w.catalog, w.runtime.sessionStatus, conversationId, providerId, model);
    && a.Some? && w'.catalog.providerSessions == a.value.catalog.providerSessions
    && w'.runtime.sessionStatus == a.value.status
  }

  lemma QueueSessions(w: World, q: QueueInput)
    requires Sized(w) && QueueTx(w, q).Some?
    ensures KeepsOrAcquires(w, QueueTx(w, q).value.world)
  {
    if !QueueTx(w, q).value.duplicate {
      var model := ResolveModelSelection(q.providerId, q.defaults, q.requestedModel, q.requestedEffort).value.model;
      AcquireIgnoresRest(w.catalog, QueueLocked(w.catalog, q), w.runtime.sessionStatus, q.conversationId, q.providerId, model);
      assert Acquires(w, QueueTx(w, q).value.world, q.conversationId, q.providerId, model);
    }
  }

  lemma RetrySessions(w: World, r: RetryInput)
    requires Sized(w) && RetryTx(w, r).Some?
    ensures KeepsOrAcquires(w, RetryTx(w, r).value.world)
  {
    if !RetryTx(w, r).value.duplicate {
      var original := w.catalog.executions[r.executionId];
      var same := r.providerId == original.providerId;
      var model := ResolveModelSelection(
        r.providerId, r.defaults, if same then original.requestedModel else None,
        if same then original.reasoningEffort else None).value.model;
      assert Acquires(w, RetryTx(w, r).value.world, original.conversationId, r.providerId, model);
    }
  }

  lemma SubmissionSessions(w: World, s: Step)
    requires Sized(w) && (s.Queue? || s.Retry?)
    ensures KeepsOrAcquires(w, Apply(w, s))
  {
    if s.Queue? && QueueTx(w, s.q).Some? {
      QueueSessions(w, s.q);
    }
    if s.Retry? && RetryTx(w, s.r).Some? {
      RetrySessions(w, s.r);
    }
  }

  function QueueLocked(c: Catalog, q: QueueInput): Catalog
    requires q.conversationId < |c.conversations|
  {
    c.(conversations := c.conversations[q.conversationId :=
      c.conversations[q.conversationId].(sequence := c.conversations[q.conversationId].sequence + 1)])
  }

  lemma AcquireIgnoresRest(
      c: Catalog, c': Catalog, status: seq<SessionStatus>, conversationId: Id, providerId: string, model: Option<string>)
    requires |status| == |c.providerSessions| && c'.providerSessions == c.providerSessions
    ensures var a := Acquire(c, status, conversationId, providerId, model);
      var a' := Acquire(c', status, conversationId, providerId, model);
      (a.Some? <==> a'.Some?) && (a.Some? ==>
        && a'.value.status == a.value.status && a'.value.id == a.value.id
        && a'.value.catalog.providerSessions == a.value.catalog.providerSessions)
  {
    assert LatestProviderSession(c, conversationId, providerId) == LatestProviderSession(c', conversationId, providerId);
  }

  /**
   Every step keeps "only the newest session is RUNNING", except exactly the success finalizer
   that marks an older session RUNNING again.
   */
  lemma StepNewestIff(w: World, s: Step)
    requires CatalogInv(w) && NewestRunning(w)
    ensures NewestRunning(Apply(w, s)) <==> !RevivesOlder(w, s)
  {
    var w' := Apply(w, s);
    if s.Queue? || s.Retry? {
      SubmissionSessions(w, s);
      if !SessionsKept(w, w') {
        var conversationId, providerId, model :| Acquires(w, w', conversationId, providerId, model);
        AcquireRunning(w.catalog, w.runtime.sessionStatus, conversationId, providerId, model);
        var a := Acquire(w.catalog, w.runtime.sessionStatus, conversationId, providerId, model).value;
        forall i | 0 <= i < |w'.runtime.sessionStatus| && w'.runtime.sessionStatus[i] == SessionRunning
          ensures IsNewest(w'.catalog, i)
        {
          assert IsNewest(a.catalog, i);
        }
      } else {
        SameSessions(w, w');
      }
    } else if s.FinalizeSuccess? {
      FinalizeNewestIff(w, s.id);
    } else {
      NoNewRunning(w, s);
      SameSessions(w, w');
    }
  }

  lemma FinalizeNewestIff(w: World, id: Id)
    requires CatalogInv(w) && NewestRunning(w)
    ensures NewestRunning(DoFinalizeSuccess(w, id)) <==> !RevivesOlder(w, FinalizeSuccess(id))
  {
    var w' := DoFinalizeSuccess(w, id);
    assert Apply(w, FinalizeSuccess(id)) == w';
    if w'.runtime.life == w.runtime.life {
      assert w'.runtime.sessionStatus == w.runtime.sessionStatus;
      SameSessions(w, w');
    } else {
      assert Linked(w.catalog, w.catalog.executions[id]);
    }
  }

  /** Only a submission or a success finalizer makes a session RUNNING. */
  lemma NoNewRunning(w: World, s: Step)
    requires Sized(w) && !s.Queue? && !s.Retry? && !s.FinalizeSuccess?
    ensures Apply(w, s).catalog.providerSessions == w.catalog.providerSessions
    ensures forall i :: 0 <= i < |w.runtime.sessionStatus| && Apply(w, s).runtime.sessionStatus[i] == SessionRunning ==>
      w.runtime.sessionStatus[i] == SessionRunning
  {
  }

  lemma SameSessions(w: World, w': World)
    requires NewestRunning(w) && Sized(w') && w'.catalog.providerSessions == w.catalog.providerSessions
    requires forall i :: 0 <= i < |w.runtime.sessionStatus| && w'.runtime.sessionStatus[i] == SessionRunning ==>
      w.runtime.sessionStatus[i] == SessionRunning
    ensures NewestRunning(w')
  {
    forall i | 0 <= i < |w'.runtime.sessionStatus| && w'.runtime.sessionStatus[i] == SessionRunning
      ensures IsNewest(w'.catalog, i)
    {
      assert IsNewest(w.catalog, i);
    }
  }

  /** In a run, only-the-newest holds all along exactly when no success finalizer revives an older session. */
  lemma {:induction false} RunNewestIff(w: World, run: seq<Step>)
    requires CatalogInv(w) && NewestRunning(w)
    ensures (forall k :: 0 <= k <= |run| ==> NewestRunning(Exec(w, run[..k])))
      <==> (forall k :: 0 <= k < |run| ==> !RevivesOlder(Exec(w, run[..k]), run[k]))
    decreases |run|
  {
    if run == [] {
      assert run[..0] == [];
    } else {
      var w', rest := Apply(w, run[0]), run[1..];
      StepNewestIff(w, run[0]);
      StepCatalog(w, run[0]);
      forall k | 0 < k <= |run| ensures Exec(w, run[..k]) == Exec(w', rest[..k - 1]) {
        assert run[..k][0] == run[0] && run[..k][1..] == rest[..k - 1];
      }
      assert run[..0] == [] && Exec(w, run[..0]) == w;
      if NewestRunning(w') {
        RunNewestIff(w', rest);
        Shift(w, run);
      } else {
        assert Exec(w, run[..1]) == Exec(w', rest[..0]) == w';
      }
    }
  }

  /** Re-indexing between a run and its tail. */
  lemma Shift(w: World, run: seq<Step>)
    requires Sized(w) && run != [] && NewestRunning(w) && !RevivesOlder(w, run[0])
    requires forall k :: 0 < k <= |run| ==> Exec(w, run[..k]) == Exec(Apply(w, run[0]), run[1..][..k - 1])
    ensures (forall k :: 0 <= k <= |run| ==> NewestRunning(Exec(w, run[..k])))
      <==> (forall k :: 0 <= k <= |run| - 1 ==> NewestRunning(Exec(Apply(w, run[0]), run[1..][..k])))
    ensures (forall k :: 0 <= k < |run| ==> !RevivesOlder(Exec(w, run[..k]), run[k]))
      <==> (forall k :: 0 <= k < |run| - 1 ==> !RevivesOlder(Exec(Apply(w, run[0]), run[1..][..k]), run[1..][k]))
  {
    var w', rest := Apply(w, run[0]), run[1..];
    assert run[..0] == [];
    forall k | 0 <= k <= |run| - 1 ensures Exec(w', rest[..k]) == Exec(w, run[..k + 1]) {}
    forall k | 0 <= k < |run| - 1 ensures rest[k] == run[k + 1] {}
    if forall k :: 0 <= k <= |run| - 1 ==> NewestRunning(Exec(w', rest[..k])) {
      forall k | 0 <= k <= |run| ensures NewestRunning(Exec(w, run[..k])) {
        if k > 0 { assert NewestRunning(Exec(w', rest[..k - 1])); }
      }
    }
    if forall k :: 0 <= k < |run| - 1 ==> !RevivesOlder(Exec(w', rest[..k]), rest[k]) {
      forall k | 0 <= k < |run| ensures !RevivesOlder(Exec(w, run[..k]), run[k]) {
        if k > 0 { assert !RevivesOlder(Exec(w', rest[..k - 1]), rest[k - 1]); }
      }
    }
  }

  // ---------- the partial unique index ----------

  lemma AcquireOneRunning(c: Catalog, status: seq<SessionStatus>, conversationId: Id, providerId: string, model: Option<string>)
    requires OneRunningIn(c.providerSessions, status)
    ensures var a := Acquire(c, status, conversationId, providerId, model);
      a.Some? ==> OneRunningIn(a.value.catalog.providerSessions, a.value.status)
  {
  }

  predicate OneRunningIn(sessions: seq<ProviderSession>, status: seq<SessionStatus>) {
    && |status| == |sessions|
    && forall i, j :: 0 <= i < j < |status| && status[i] == status[j] == SessionRunning ==>
         !SamePair(sessions[j], sessions[i].conversationId, sessions[i].providerId)
  }

  lemma StepOneRunning(w: World, s: Step)
    requires CatalogInv(w) && OneRunningIn(w.catalog.providerSessions, w.runtime.sessionStatus)
    ensures OneRunningIn(Apply(w, s).catalog.providerSessions, Apply(w, s).runtime.sessionStatus)
  {
    var w' := Apply(w, s);
    if s.Queue? || s.Retry? {
      SubmissionSessions(w, s);
      if !SessionsKept(w, w') {
        var conversationId, providerId, model :| Acquires(w, w', conversationId, providerId, model);
        AcquireOneRunning(w.catalog, w.runtime.sessionStatus, conversationId, providerId, model);
      }
    } else if s.FinalizeSuccess? {
      FinalizeOneRunning(w, s.id);
    } else {
      NoNewRunning(w, s);
    }
  }

  lemma FinalizeOneRunning(w: World, id: Id)
    requires CatalogInv(w) && OneRunningIn(w.catalog.providerSessions, w.runtime.sessionStatus)
    ensures OneRunningIn(DoFinalizeSuccess(w, id).catalog.providerSessions, DoFinalizeSuccess(w, id).runtime.sessionStatus)
  {
    if DoFinalizeSuccess(w, id).runtime.life != w.runtime.life {
      assert Linked(w.catalog, w.catalog.executions[id]);
    }
  }

  lemma {:induction false} RunOneRunning(w: World, run: seq<Step>)
    requires CatalogInv(w) && OneRunningIn(w.catalog.providerSessions, w.runtime.sessionStatus)
    ensures OneRunningIn(Exec(w, run).catalog.providerSessions, Exec(w, run).runtime.sessionStatus)
    decreases |run|
  {
    if run != [] {
      StepOneRunning(w, run[0]);
      StepCatalog(w, run[0]);
      RunOneRunning(Apply(w, run[0]), run[1..]);
    }
  }

  /**
   In every reachable world a conversation and provider have at most one RUNNING session. If it
   is not their newest one, every submission that must acquire a session for them throws:
   a queue that is not a replay, and a retry with no active execution to return.
   */
  lemma RevivedSessionBlocksSubmissions(run: seq<Step>, i: Id, q: QueueInput, r: RetryInput)
    requires var w := Exec(EMPTY, run);
      && i < |w.catalog.providerSessions| && w.runtime.sessionStatus[i] == SessionRunning && !IsNewest(w.catalog, i)
    ensures var w := Exec(EMPTY, run);
      var session := w.catalog.providerSessions[i];
      && (forall j :: 0 <= j < |w.catalog.providerSessions| && j != i && w.runtime.sessionStatus[j] == SessionRunning ==>
            !SamePair(w.catalog.providerSessions[j], session.conversationId, session.providerId))
      && (q.conversationId == session.conversationId && q.providerId == session.providerId && QueueTx(w, q).Some? ==>
            QueueTx(w, q).value.duplicate)
      && (r.executionId < |w.catalog.executions| && r.providerId == session.providerId
            && w.catalog.executions[r.executionId].conversationId == session.conversationId && RetryTx(w, r).Some? ==>
            RetryTx(w, r).value.duplicate)
  {
    RunCatalog(EMPTY, run);
    RunOneRunning(EMPTY, run);
    var w := Exec(EMPTY, run);
    var session := w.catalog.providerSessions[i];
    forall model: Option<string>
      ensures Acquire(w.catalog, w.runtime.sessionStatus, session.conversationId, session.providerId, model).None?
    {
      OlderRunningBlocks(w.catalog, w.runtime.sessionStatus, i, model);
    }
    if q.conversationId == session.conversationId && q.providerId == session.providerId {
      BlockedQueue(w, session, q);
    }
    if r.executionId < |w.catalog.executions| && r.providerId == session.providerId {
      if w.catalog.executions[r.executionId].conversationId == session.conversationId {
        BlockedRetry(w, session, r);
      }
    }
  }

  ghost predicate Blocked(w: World, session: ProviderSession)
    requires Sized(w)
  {
    forall model: Option<string> ::
      Acquire(w.catalog, w.runtime.sessionStatus, session.conversationId, session.providerId, model).None?
  }

  lemma BlockedQueue(w: World, session: ProviderSession, q: QueueInput)
    requires Sized(w) && Blocked(w, session)
    requires q.conversationId == session.conversationId && q.providerId == session.providerId
    ensures QueueTx(w, q).Some? ==> QueueTx(w, q).value.duplicate
  {
    if q.conversationId < |w.catalog.conversations| {
      forall model: Option<string>
        ensures Acquire(QueueLocked(w.catalog, q), w.runtime.sessionStatus, session.conversationId, session.providerId, model).None?
      {
        AcquireIgnoresRest(
          w.catalog, QueueLocked(w.catalog, q), w.runtime.sessionStatus, session.conversationId, session.providerId, model);
      }
      assert QueueNew(w.(catalog := QueueLocked(w.catalog, q)), q).None?;
    }
  }

  lemma BlockedRetry(w: World, session: ProviderSession, r: RetryInput)
    requires Sized(w) && Blocked(w, session)
    requires r.executionId < |w.catalog.executions| && r.providerId == session.providerId
    requires w.catalog.executions[r.executionId].conversationId == session.conversationId
    ensures RetryTx(w, r).Some? ==> RetryTx(w, r).value.duplicate
  {
  }
}
