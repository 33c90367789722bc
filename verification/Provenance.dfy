/** Where an execution's capability comes from, over every history of queues and retries. */
module Provenance {
  import opened Wrappers
  import opened Capability
  import opened Tables
  import opened Submission
  import opened Protocol
  import opened CatalogSafety

  function ModeOf(c: Catalog, i: Id): Mode
    requires i < |c.executions| && c.executions[i].userMessageId < |c.userMessages|
  {
    c.userMessages[c.executions[i].userMessageId].mode
  }

  /** An execution of this provider in this conversation that states its own mode. */
  predicate Grants(c: Catalog, i: Id, conversationId: Id, providerId: string)
    requires AllLinked(c) && i < |c.executions|
  {
    assert Linked(c, c.executions[i]);
    SameLine(c.executions[i], conversationId, providerId) && ModeOf(c, i) != Continue
  }

  /** The newest execution before `n` that is not itself a CONTINUE. */
  function LastGranting(c: Catalog, conversationId: Id, providerId: string, n: nat): (r: Option<Id>)
    requires AllLinked(c) && n <= |c.executions|
    ensures r.Some? ==> r.value < n && Grants(c, r.value, conversationId, providerId)
    ensures r.Some? ==> forall k :: r.value < k < n ==> !Grants(c, k, conversationId, providerId)
    ensures r.None? ==> forall k :: 0 <= k < n ==> !Grants(c, k, conversationId, providerId)
  {
    if n == 0 then None
    else if Grants(c, n - 1, conversationId, providerId) then Some(n - 1)
    else LastGranting(c, conversationId, providerId, n - 1)
  }

  /** What a CONTINUE submitted after the first `n` executions should be granted. */
  function Inherited(c: Catalog, conversationId: Id, providerId: string, n: nat): ExecutionCapability
    requires AllLinked(c) && n <= |c.executions|
  {
    var granting := LastGranting(c, conversationId, providerId, n);
    if granting.Some? && ModeOf(c, granting.value) == Implement then WorkspaceWrite else ReadOnly
  }

  ghost predicate Traced(c: Catalog, i: Id)
    requires AllLinked(c) && i < |c.executions|
  {
    assert Linked(c, c.executions[i]);
    var e := c.executions[i];
    e.capability ==
      if ModeOf(c, i) == Implement then WorkspaceWrite
      else if ModeOf(c, i) == Continue && e.providerId == CLAUDE then Inherited(c, e.conversationId, e.providerId, i)
      else ReadOnly
  }

  ghost predicate AllTraced(c: Catalog) {
    AllLinked(c) && forall i :: 0 <= i < |c.executions| ==> Traced(c, i)
  }

  /** Growth does not change what earlier executions inherited. */
  lemma {:induction false} LastGrantingStable(c: Catalog, c': Catalog, conversationId: Id, providerId: string, n: nat)
    requires AllLinked(c) && AllLinked(c') && Extends(c, c') && n <= |c.executions|
    ensures LastGranting(c', conversationId, providerId, n) == LastGranting(c, conversationId, providerId, n)
  {
    if n > 0 {
      assert Linked(c, c.executions[n - 1]) && Linked(c', c'.executions[n - 1]);
      assert c'.executions[n - 1] == c.executions[n - 1];
      LastGrantingStable(c, c', conversationId, providerId, n - 1);
    }
  }

  lemma TracedStable(c: Catalog, c': Catalog, i: Id)
    requires AllLinked(c) && AllLinked(c') && Extends(c, c') && i < |c.executions| && Traced(c, i)
    ensures Traced(c', i)
  {
    var e := c.executions[i];
    assert Linked(c, e) && c'.executions[i] == e;
    LastGrantingStable(c, c', e.conversationId, e.providerId, i);
    var granting := LastGranting(c, e.conversationId, e.providerId, i);
    if granting.Some? {
      assert Linked(c, c.executions[granting.value]) && c'.executions[granting.value] == c.executions[granting.value];
    }
  }

  /** Copying the newest execution's capability is the same as looking past every CONTINUE. */
  lemma ContinuedIsInherited(c: Catalog, conversationId: Id)
    requires AllTraced(c)
    ensures var continued := Continued(c, conversationId, CLAUDE, Continue);
      (if continued.Some? then continued.value else ReadOnly) == Inherited(c, conversationId, CLAUDE, |c.executions|)
  {
    var latest := LatestExecution(c, conversationId, CLAUDE);
    var granting := LastGranting(c, conversationId, CLAUDE, |c.executions|);
    if latest.Some? {
      var j := latest.value;
      assert Traced(c, j) && Linked(c, c.executions[j]);
      var earlier := LastGranting(c, conversationId, CLAUDE, j);
      if ModeOf(c, j) == Continue {
        assert !Grants(c, j, conversationId, CLAUDE);
        assert granting == earlier;
      } else {
        assert Grants(c, j, conversationId, CLAUDE);
        assert granting == Some(j);
      }
    }
  }

  /** What a committed, non-duplicate submission adds to the execution table. */
  ghost predicate AddsExecution(w: World, w': World, continued: Option<ExecutionCapability>) {
    && |w'.catalog.executions| == |w.catalog.executions| + 1
    && var e := w'.catalog.executions[|w.catalog.executions|];
    && e.userMessageId < |w'.catalog.userMessages|
    && var mode := w'.catalog.userMessages[e.userMessageId].mode;
    && continued == Continued(w.catalog, e.conversationId, e.providerId, mode)
    && Some(e.capability) == ResolveExecutionCapability(e.providerId, mode, continued)
  }

  lemma QueueAdds(w: World, q: QueueInput)
    requires Sized(w) && QueueTx(w, q).Some? && !QueueTx(w, q).value.duplicate
    ensures AddsExecution(w, QueueTx(w, q).value.world, Continued(w.catalog, q.conversationId, q.providerId, q.mode))
  {
    var locked := w.catalog.(conversations := QueueTx(w, q).value.world.catalog.conversations);
    assert LatestExecution(locked, q.conversationId, q.providerId) == LatestExecution(w.catalog, q.conversationId, q.providerId);
  }

  lemma RetryAdds(w: World, r: RetryInput)
    requires CatalogInv(w) && RetryTx(w, r).Some? && !RetryTx(w, r).value.duplicate
    ensures exists continued :: AddsExecution(w, RetryTx(w, r).value.world, continued)
  {
    var original := w.catalog.executions[r.executionId];
    assert Linked(w.catalog, original);
    var mode := w.catalog.userMessages[original.userMessageId].mode;
    assert AddsExecution(w, RetryTx(w, r).value.world, Continued(w.catalog, original.conversationId, r.providerId, mode));
  }

  lemma AddsTraced(w: World, w': World, continued: Option<ExecutionCapability>)
    requires AllTraced(w.catalog) && AllLinked(w'.catalog) && Extends(w.catalog, w'.catalog)
    requires AddsExecution(w, w', continued)
    ensures AllTraced(w'.catalog)
  {
    var c, c' := w.catalog, w'.catalog;
    forall i | 0 <= i < |c'.executions| ensures Traced(c', i) {
      if i < |c.executions| {
        TracedStable(c, c', i);
      } else {
        var e := c'.executions[i];
        ContinuedIsInherited(c, e.conversationId);
        LastGrantingStable(c, c', e.conversationId, e.providerId, i);
        var granting := LastGranting(c, e.conversationId, e.providerId, i);
        if granting.Some? {
          assert Linked(c, c.executions[granting.value]) && c'.executions[granting.value] == c.executions[granting.value];
        }
      }
    }
  }

  lemma StepTraced(w: World, s: Step)
    requires CatalogInv(w) && AllTraced(w.catalog)
    ensures CatalogInv(Apply(w, s)) && AllTraced(Apply(w, s).catalog)
  {
    StepCatalog(w, s);
    if s.Queue? {
      assert Apply(w, s) == Commit(w, QueueTx(w, s.q));
      QueueTraced(w, s.q);
    } else if s.Retry? {
      assert Apply(w, s) == Commit(w, RetryTx(w, s.r));
      RetryTraced(w, s.r);
    } else {
      OtherExecutions(w, s);
      SameTraced(w, Apply(w, s));
    }
  }

  lemma QueueTraced(w: World, q: QueueInput)
    requires CatalogInv(w) && AllTraced(w.catalog) && CatalogInv(Commit(w, QueueTx(w, q)))
    requires Extends(w.catalog, Commit(w, QueueTx(w, q)).catalog)
    ensures AllTraced(Commit(w, QueueTx(w, q)).catalog)
  {
    var w' := Commit(w, QueueTx(w, q));
    if QueueTx(w, q).Some? && !QueueTx(w, q).value.duplicate {
      QueueAdds(w, q);
      AddsTraced(w, w', Continued(w.catalog, q.conversationId, q.providerId, q.mode));
    } else {
      SameTraced(w, w');
    }
  }

  lemma RetryTraced(w: World, r: RetryInput)
    requires CatalogInv(w) && AllTraced(w.catalog) && CatalogInv(Commit(w, RetryTx(w, r)))
    requires Extends(w.catalog, Commit(w, RetryTx(w, r)).catalog)
    ensures AllTraced(Commit(w, RetryTx(w, r)).catalog)
  {
    var w' := Commit(w, RetryTx(w, r));
    if RetryTx(w, r).Some? && !RetryTx(w, r).value.duplicate {
      RetryAdds(w, r);
      var continued :| AddsExecution(w, w', continued);
      AddsTraced(w, w', continued);
    } else {
      SameTraced(w, w');
    }
  }

  lemma OtherExecutions(w: World, s: Step)
    requires Sized(w) && !s.Queue? && !s.Retry?
    ensures Apply(w, s).catalog.executions == w.catalog.executions
  {
    if !s.CreateConversation? && !s.CreateTask? {
      MailStays(w, s);
    }
  }

  lemma SameTraced(w: World, w': World)
    requires AllTraced(w.catalog) && AllLinked(w.catalog) && AllLinked(w'.catalog) && Extends(w.catalog, w'.catalog)
    requires w'.catalog.executions == w.catalog.executions
    ensures AllTraced(w'.catalog)
  {
    forall i | 0 <= i < |w'.catalog.executions| ensures Traced(w'.catalog, i) {
      TracedStable(w.catalog, w'.catalog, i);
    }
  }

  lemma {:induction false} RunTraced(w: World, run: seq<Step>)
    requires CatalogInv(w) && AllTraced(w.catalog)
    ensures CatalogInv(Exec(w, run)) && AllTraced(Exec(w, run).catalog)
    decreases |run|
  {
    if run != [] {
      StepTraced(w, run[0]);
      RunTraced(Apply(w, run[0]), run[1..]);
    }
  }

  /**
   Provenance: in every reachable world a Claude CONTINUE holds exactly the capability of the
   most recent earlier Claude execution of its conversation that is not a CONTINUE, or
   READ_ONLY when there is none; every other execution holds its own mode's capability, so a
   Codex CONTINUE is READ_ONLY.
   */
  lemma CapabilityProvenance(run: seq<Step>, i: Id)
    requires i < |Exec(EMPTY, run).catalog.executions|
    ensures var c := Exec(EMPTY, run).catalog;
      && AllLinked(c) && Linked(c, c.executions[i])
      && var e := c.executions[i];
      && (ModeOf(c, i) == Implement ==> e.capability == WorkspaceWrite)
      && (ModeOf(c, i) in {Ask, Review, Verify} ==> e.capability == ReadOnly)
      && (ModeOf(c, i) == Continue && e.providerId == CODEX ==> e.capability == ReadOnly)
      && (ModeOf(c, i) == Continue && e.providerId == CLAUDE ==>
          || (e.capability == ReadOnly && forall k :: 0 <= k < i ==> !Grants(c, k, e.conversationId, e.providerId))
          || (exists j :: 0 <= j < i && Grants(c, j, e.conversationId, e.providerId)
                && (forall k :: j < k < i ==> !Grants(c, k, e.conversationId, e.providerId))
                && e.capability == c.executions[j].capability))
  {
    RunTraced(EMPTY, run);
    var c := Exec(EMPTY, run).catalog;
    var e := c.executions[i];
    assert Traced(c, i) && Linked(c, e);
    if ModeOf(c, i) == Continue && e.providerId == CLAUDE {
      var granting := LastGranting(c, e.conversationId, e.providerId, i);
      if granting.Some? {
        assert Traced(c, granting.value);
        assert Grants(c, granting.value, e.conversationId, e.providerId) && e.capability == c.executions[granting.value].capability;
      }
    }
  }

  /** Write access always traces back to an IMPLEMENT of the same provider in the same conversation. */
  lemma WriteTracesToImplement(run: seq<Step>, i: Id)
    requires i < |Exec(EMPTY, run).catalog.executions|
    requires Exec(EMPTY, run).catalog.executions[i].capability == WorkspaceWrite
    ensures var c := Exec(EMPTY, run).catalog;
      exists j :: (0 <= j <= i
        && c.executions[j].userMessageId < |c.userMessages| && ModeOf(c, j) == Implement
        && SameLine(c.executions[j], c.executions[i].conversationId, c.executions[i].providerId))
  {
    RunTraced(EMPTY, run);
    var c := Exec(EMPTY, run).catalog;
    var e := c.executions[i];
    assert Traced(c, i) && Linked(c, e);
    if ModeOf(c, i) != Implement {
      var granting := LastGranting(c, e.conversationId, e.providerId, i);
      assert Linked(c, c.executions[granting.value]);
    }
  }
}
