/** The executor's guarantees over whole runs: every reachable state, whatever
    the interleaving. */
module ExecutionRuns {
  import opened Common
  import opened Workflow
  import opened ExecutionStore
  import opened ExecutionSteps
  import opened ExecutionSafety
  import opened ExecutionLinks

  ghost predicate Invariant(p: Plan, w: World) {
    Consistent(p, w) && StatusFits(w.store) && Causal(p, w.store.rows) && LinksFit(w)
  }

  lemma NextInvariant(p: Plan, w: World, e: Event)
    requires Invariant(p, w)
    ensures Invariant(p, Next(p, w, e))
  {
    NextConsistent(p, w, e);
    NextLinks(p, w, e);
    UpdateOfFits(p, w, e);
    ApplyStatusFits(p, w.store, UpdateOf(p, w, e), w.now);
    if e.Step? && e.call in w.calls {
      StepClaimDue(p, w, w.calls[e.call], e.dispatch);
    }
    ApplyCausal(p, w.store, UpdateOf(p, w, e), w.now);
  }

  lemma {:induction false} RunInvariant(p: Plan, w: World, es: seq<Event>)
    requires Invariant(p, w)
    ensures Invariant(p, Run(p, w, es))
  {
    if es != [] {
      RunInvariant(p, w, es[..|es| - 1]);
      NextInvariant(p, Run(p, w, es[..|es| - 1]), es[|es| - 1]);
    }
  }

  lemma InitialInvariant(p: Plan, now: int)
    ensures Invariant(p, Initial(p, now))
  {
  }

  /** Causality: in every run, a node other than a trigger that has been started
      has only settled predecessors. */
  lemma PredecessorsSettled(p: Plan, now: int, es: seq<Event>, e: Edge)
    requires e in p.def.edges && !KindOf(p.def, e.target).Trigger?
    requires var rows := Run(p, Initial(p, now), es).store.rows;
             e.target in rows && Entered(rows[e.target].status)
    ensures var rows := Run(p, Initial(p, now), es).store.rows;
            e.source in rows && (rows[e.source].status.Succeeded? || rows[e.source].status.Skipped?)
  {
    InitialInvariant(p, now);
    RunInvariant(p, Initial(p, now), es);
    var rows := Run(p, Initial(p, now), es).store.rows;
    assert SourceSettled(rows, e);
  }

  /** Terminal agreement: what the execution's status says about its nodes, and
      the outputs a succeeded execution reports are those of its node rows. */
  lemma TerminalAgreement(p: Plan, now: int, es: seq<Event>)
    ensures var s := Run(p, Initial(p, now), es).store;
            && s.rows.Keys == Ids(p.def)
            && (s.status.ExecSucceeded? ==>
                  (forall n | n in s.rows :: s.rows[n].status.Succeeded? || s.rows[n].status.Skipped?)
                  && s.outputs == Some(map n | n in s.rows && s.rows[n].output.Some? :: s.rows[n].output.value))
            && (s.status.ExecFailed? || s.status.ExecCancelled? ==> forall n | n in s.rows :: Terminal(s.rows[n].status))
            && (!Finished(s.status) ==> forall n | n in s.rows :: !s.rows[n].status.Cancelled?)
  {
    InitialInvariant(p, now);
    RunInvariant(p, Initial(p, now), es);
  }

  lemma {:induction false} RunEvolves(p: Plan, w: World, es: seq<Event>)
    requires Invariant(p, w)
    ensures Evolves(w.store, Run(p, w, es).store)
  {
    if es != [] {
      var before := Run(p, w, es[..|es| - 1]);
      RunEvolves(p, w, es[..|es| - 1]);
      RunInvariant(p, w, es[..|es| - 1]);
      UpdateOfFits(p, before, es[|es| - 1]);
      EvolvesTransitive(w.store, before.store, Run(p, w, es).store);
    }
  }

  /** Cancelling an open execution cancels its open nodes and keeps the others, and nothing
      that still runs changes any of that. */
  lemma CancelledForGood(p: Plan, now: int, es: seq<Event>, more: seq<Event>)
    requires !Finished(Run(p, Initial(p, now), es).store.status)
    ensures var s, t := Run(p, Initial(p, now), es).store, Run(p, Next(p, Run(p, Initial(p, now), es), Cancel), more).store;
            && t.status.ExecCancelled? && t.outputs == s.outputs && t.rows.Keys == s.rows.Keys
            && forall n | n in s.rows ::
                 if Terminal(s.rows[n].status) then t.rows[n] == s.rows[n] else t.rows[n].status.Cancelled?
  {
    var w := Run(p, Initial(p, now), es);
    InitialInvariant(p, now);
    RunInvariant(p, Initial(p, now), es);
    var v := Next(p, w, Cancel);
    NextInvariant(p, w, Cancel);
    RunEvolves(p, v, more);
    forall n | n in w.store.rows
      ensures var t := Run(p, v, more).store;
              if Terminal(w.store.rows[n].status) then t.rows[n] == w.store.rows[n] else t.rows[n].status.Cancelled?
    {
      assert RowEvolves(v.store.rows[n], Run(p, v, more).store.rows[n]);
    }
  }

  lemma {:induction false} RunAppend(p: Plan, w: World, es: seq<Event>, more: seq<Event>)
    ensures Run(p, w, es + more) == Run(p, Run(p, w, es), more)
  {
    if more == [] {
      assert es + more == es;
    } else {
      var n := |more| - 1;
      RunAppend(p, w, es, more[..n]);
      assert (es + more)[..|es + more| - 1] == es + more[..n];
    }
  }

  lemma RunThen(p: Plan, w: World, es: seq<Event>, e: Event)
    ensures Run(p, w, es + [e]) == Next(p, Run(p, w, es), e)
  {
    assert (es + [e])[..|es|] == es;
  }

  ghost predicate Leads(p: Plan, w: World, v: World) {
    exists es :: Run(p, w, es) == v
  }

  lemma LeadsOn(p: Plan, w: World, v: World, e: Event)
    requires Leads(p, w, v)
    ensures Leads(p, w, Next(p, v, e))
  {
    var es :| Run(p, w, es) == v;
    RunThen(p, w, es, e);
  }

  ghost function ReachableFrom(p: Plan, w: World): iset<World> {
    iset v | Leads(p, w, v)
  }

  /** A set of worlds that no event leaves. */
  ghost predicate ClosedUnder(p: Plan, r: iset<World>) {
    forall v, e {:trigger Next(p, v, e)} | v in r :: Next(p, v, e) in r
  }

  lemma ReachableClosed(p: Plan, w: World)
    ensures w in ReachableFrom(p, w) && ClosedUnder(p, ReachableFrom(p, w))
  {
    assert Run(p, w, []) == w;
    forall v, e | v in ReachableFrom(p, w)
      ensures Next(p, v, e) in ReachableFrom(p, w)
    {
      LeadsOn(p, w, v, e);
    }
  }

  lemma ReachableInvariant(p: Plan, w: World)
    requires Invariant(p, w)
    ensures forall v {:trigger Invariant(p, v)} | v in ReachableFrom(p, w) :: Invariant(p, v)
  {
    forall v | v in ReachableFrom(p, w)
      ensures Invariant(p, v)
    {
      var es :| Run(p, w, es) == v;
      RunInvariant(p, w, es);
    }
  }

  /** Once terminal, neither the execution's status nor any terminal node row
      changes again, whatever calls still hold. */
  lemma TerminalForever(p: Plan, now: int, es: seq<Event>, more: seq<Event>)
    ensures var s, t := Run(p, Initial(p, now), es).store, Run(p, Initial(p, now), es + more).store;
            && (Finished(s.status) ==> t == s)
            && (forall n | n in s.rows && Terminal(s.rows[n].status) :: n in t.rows && t.rows[n] == s.rows[n])
            && (forall n | n in s.rows && !s.rows[n].status.Pending? :: n in t.rows && !t.rows[n].status.Pending?)
  {
    InitialInvariant(p, now);
    RunInvariant(p, Initial(p, now), es);
    RunAppend(p, Initial(p, now), es, more);
    var w := Run(p, Initial(p, now), es);
    RunEvolves(p, w, more);
    var s, t := w.store, Run(p, w, more).store;
    assert forall n | n in s.rows :: RowEvolves(s.rows[n], t.rows[n]);
    if Finished(s.status) {
      assert s.rows == t.rows;
    }
  }

  /** How often a node was claimed in a run. */
  ghost function Claims(p: Plan, w: World, es: seq<Event>, node: string): nat {
    if es == [] then 0
    else
      var before := Run(p, w, es[..|es| - 1]);
      Claims(p, w, es[..|es| - 1], node)
      + (if UpdateOf(p, before, es[|es| - 1]) == ClaimNode(node) && CanClaim(before.store, node) then 1 else 0)
  }

  lemma {:induction false} ClaimsLeavePending(p: Plan, now: int, es: seq<Event>, node: string)
    requires node in Ids(p.def)
    ensures var w := Run(p, Initial(p, now), es);
            && node in w.store.rows
            && Claims(p, Initial(p, now), es, node) <= 1
            && (w.store.rows[node].status.Pending? ==> Claims(p, Initial(p, now), es, node) == 0)
  {
    InitialInvariant(p, now);
    RunInvariant(p, Initial(p, now), es);
    if es != [] {
      var before := es[..|es| - 1];
      ClaimsLeavePending(p, now, before, node);
      RunInvariant(p, Initial(p, now), before);
      var w := Run(p, Initial(p, now), before);
      UpdateOfFits(p, w, es[|es| - 1]);
      assert RowEvolves(w.store.rows[node], Run(p, Initial(p, now), es).store.rows[node]);
    }
  }

  /** No node is claimed twice, and however often recovery dispatches it again it
      has at most one task, the one its row points to. */
  lemma ClaimedAndDispatchedOnce(p: Plan, now: int, es: seq<Event>, node: string)
    requires node in Ids(p.def)
    ensures Claims(p, Initial(p, now), es, node) <= 1
    ensures var w := Run(p, Initial(p, now), es);
            && (forall a, b | a in w.tasks && b in w.tasks && w.tasks[a].node == node && w.tasks[b].node == node :: a == b)
            && (node in w.store.rows && w.store.rows[node].task.Some? ==>
                  w.store.rows[node].task.value in w.tasks && w.tasks[w.store.rows[node].task.value].node == node)
            && (node in w.store.rows && w.store.rows[node].delivery.Some? ==>
                  w.store.rows[node].delivery.value == node && node in w.deliveries)
  {
    ClaimsLeavePending(p, now, es, node);
    InitialInvariant(p, now);
    RunInvariant(p, Initial(p, now), es);
    var w := Run(p, Initial(p, now), es);
    assert Linked(w.tasks, w.deliveries, Item(node, w.store.rows[node]));
  }
}
