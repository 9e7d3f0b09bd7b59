/** When a failed execution shows a failed node: the executor fails the execution even
    if it could no longer store the failed row. */
module ExecutionFailure {
  import opened Common
  import opened Workflow
  import opened ExecutionStore
  import opened ExecutionSteps
  import opened ExecutionSafety
  import opened ExecutionRuns
  import opened ExecutionRaces

  /** The failed row is not stored, because the row has moved on. */
  ghost predicate LosesFailure(w: World, e: Event) {
    && e.Step? && e.call in w.calls && w.calls[e.call].FailWrite?
    && !CanSwap(w.store, w.calls[e.call].item.node, Running)
  }

  ghost predicate FailureShown(w: World) {
    && (w.store.status.ExecFailed? ==> AnyFailed(w.store.rows))
    && (forall id | id in w.calls :: FailureCall(w.store.rows, w.calls[id]))
  }

  predicate FailureCall(rows: map<string, Row>, call: Call) {
    && (call.FailExecution? ==> AnyFailed(rows))
    && (call.FailWrite? ==> call.item.row.status.Failed?)
  }

  lemma FailedStays(s: Store, t: Store)
    requires Evolves(s, t) && AnyFailed(s.rows)
    ensures AnyFailed(t.rows)
  {
    var n :| n in s.rows && s.rows[n].status.Failed?;
    assert RowEvolves(s.rows[n], t.rows[n]);
  }

  lemma ExecuteFails(w: World, item: Item, kind: NodeKind, config: Config, computed: Option<Output>, back: Back, dispatch: Dispatch)
    ensures FailureCall(w.store.rows, ExecuteNode(w, item, kind, config, computed, back, dispatch).call)
  {
  }

  lemma ScheduleFailsNothing(p: Plan, w: World, iteration: nat, snapshot: map<string, Row>, index: nat)
    ensures var call := ScheduleStep(p, w, iteration, snapshot, index).call; !call.FailWrite? && !call.FailExecution?
  {
  }

  /** A call comes to fail the execution only with a failed row stored. */
  lemma StepFailure(p: Plan, w: World, call: Call, dispatch: Dispatch)
    requires FailureCall(w.store.rows, call)
    requires call.FailWrite? ==> CanSwap(w.store, call.item.node, Running)
    ensures var f := StepCall(p, w, call, dispatch);
            FailureCall(Apply(w.store, f.update, w.now).rows, f.call)
  {
    match call
    case Execute(item, back) =>
      ExecuteFails(w, item, KindOf(p.def, item.node), ConfigOf(p.def, item.node), Computed(p, item.node), back, dispatch);
      ExecuteQuiet(w, item, KindOf(p.def, item.node), ConfigOf(p.def, item.node), Computed(p, item.node), back, dispatch);
    case FailWrite(item, back) =>
      assert Swap(w.store, item.node, item.row, Running).rows[item.node].status.Failed?;
    case Schedule(iteration, snapshot, index) => ScheduleFailsNothing(p, w, iteration, snapshot, index);
    case _ =>
  }

  lemma ExecuteQuiet(w: World, item: Item, kind: NodeKind, config: Config, computed: Option<Output>, back: Back, dispatch: Dispatch)
    ensures ExecuteNode(w, item, kind, config, computed, back, dispatch).update.NoUpdate?
  {
  }

  /** The execution fails only through a call that has a failed row to show. */
  lemma StatusFailure(p: Plan, w: World, e: Event)
    requires FailureShown(w) && Next(p, w, e).store.status.ExecFailed?
    ensures AnyFailed(w.store.rows)
  {
    if e.Step? && e.call in w.calls {
      assert FailureCall(w.store.rows, w.calls[e.call]);
      FailUpdate(p, w, w.calls[e.call], e.dispatch);
    }
  }

  lemma FailUpdate(p: Plan, w: World, call: Call, dispatch: Dispatch)
    ensures StepCall(p, w, call, dispatch).update.Fail? ==> call.FailExecution?
  {
    if call.Execute? {
      var item := call.item;
      ExecuteQuiet(w, item, KindOf(p.def, item.node), ConfigOf(p.def, item.node), Computed(p, item.node), call.back, dispatch);
    }
  }

  lemma NextFailureShown(p: Plan, w: World, e: Event)
    requires Consistent(p, w) && FailureShown(w) && !LosesFailure(w, e)
    ensures FailureShown(Next(p, w, e))
  {
    var v := Next(p, w, e);
    UpdateOfFits(p, w, e);
    if v.store.status.ExecFailed? {
      StatusFailure(p, w, e);
    }
    if AnyFailed(w.store.rows) {
      FailedStays(w.store, v.store);
    }
    forall id | id in v.calls
      ensures FailureCall(v.store.rows, v.calls[id])
    {
      assert id in w.calls ==> FailureCall(w.store.rows, w.calls[id]);
      if e.Step? && e.call == id {
        StepFailure(p, w, w.calls[id], e.dispatch);
      }
    }
  }

  ghost predicate LosesNoFailure(p: Plan, w: World, es: seq<Event>) {
    forall k | 0 <= k < |es| :: !LosesFailure(Run(p, w, es[..k]), es[k])
  }

  /** A run that never loses a failed row fails only with a failed node to show. */
  lemma {:induction false} FailedHasFailedNode(p: Plan, now: int, es: seq<Event>)
    requires LosesNoFailure(p, Initial(p, now), es)
    ensures FailureShown(Run(p, Initial(p, now), es))
  {
    if es != [] {
      var m := |es| - 1;
      forall k | 0 <= k < m
        ensures !LosesFailure(Run(p, Initial(p, now), es[..m][..k]), es[..m][k])
      {
        assert es[..m][..k] == es[..k];
      }
      FailedHasFailedNode(p, now, es[..m]);
      InitialInvariant(p, now);
      RunInvariant(p, Initial(p, now), es[..m]);
      NextFailureShown(p, Run(p, Initial(p, now), es[..m]), es[m]);
    }
  }

  /** A call about to store a failed row of an open execution: after its two steps the
      execution has failed, and it shows a failed node if and only if the row could be
      stored or another node had failed before. */
  lemma FailedNodeIff(p: Plan, w: World, id: nat)
    requires !Finished(w.store.status)
    requires id in w.calls && w.calls[id].FailWrite? && w.calls[id].item.row.status.Failed?
    ensures var v := Next(p, Next(p, w, Step(id, Refused)), Step(id, Refused));
            && v.store.status.ExecFailed?
            && (AnyFailed(v.store.rows) <==> CanSwap(w.store, w.calls[id].item.node, Running) || AnyFailed(w.store.rows))
  {
    var item := w.calls[id].item;
    var w1 := Next(p, w, Step(id, Refused));
    assert w1.store == Swap(w.store, item.node, item.row, Running) && w1.calls[id] == FailExecution(w.calls[id].back);
    assert Next(p, w1, Step(id, Refused)).store == FinalizeFailed(w1.store, w.now);
    FailingShows(w1.store, w.now);
    SwapShowsFailure(w.store, item);
  }

  lemma FailingShows(s: Store, now: int)
    requires !Finished(s.status)
    ensures FinalizeFailed(s, now).status.ExecFailed? && (AnyFailed(FinalizeFailed(s, now).rows) <==> AnyFailed(s.rows))
  {
    var t := FinalizeFailed(s, now);
    assert forall n | n in s.rows :: t.rows[n].status.Failed? <==> s.rows[n].status.Failed?;
  }

  lemma SwapShowsFailure(s: Store, item: Item)
    requires item.row.status.Failed?
    ensures AnyFailed(Swap(s, item.node, item.row, Running).rows) <==> CanSwap(s, item.node, Running) || AnyFailed(s.rows)
  {
    var t := Swap(s, item.node, item.row, Running);
    if CanSwap(s, item.node, Running) {
      assert t.rows[item.node].status.Failed?;
    }
  }

  // ----- a run that loses one

  /** A trigger and a task behind it. */
  ghost predicate Pair(p: Plan, t: string, k: string) {
    && t != k && p.listing == [t, k] && |p.def.nodes| == 2 && p.def.nodes[0].id == t && p.def.nodes[1].id == k
    && Ids(p.def) == {t, k} && KindOf(p.def, t).Trigger? && KindOf(p.def, k).Task? && Decoded(Task, ConfigOf(p.def, k))
    && |Incoming(p.def.edges, k)| == 1 && Incoming(p.def.edges, k)[0].source == t
  }

  lemma PairReady(p: Plan, t: string, k: string, rows: map<string, Row>)
    requires Pair(p, t, k) && t in rows && rows[t].status.Succeeded?
    ensures ReadinessOf(p.def, rows, k).Runnable?
  {
    var e := Incoming(p.def.edges, k)[0];
    assert Incoming(p.def.edges, k) == [e] && [e][1..] == [];
    assert EdgeVerdict(p.def, rows, e).Active?;
    assert Judge(p.def, rows, [], true).Runnable? && Judge(p.def, rows, [e], false).Runnable?;
  }

  ghost function PairRows(p: Plan, t: string, k: string, task: Row): map<string, Row> {
    map[t := DoneRow(Computed(p, t), 0), k := task]
  }

  const FAILED := Row(Failed, 1, None, None, None, None, 0)
  const LINKED := Row(Queued, 1, None, Some(0), None, None, LEASE)

  /** The first call settles the trigger, claims the task node and cannot dispatch it; it
      is about to store the failed row. */
  lemma AboutToFail(p: Plan, r: iset<World>, t: string, k: string)
    requires Pair(p, t, k) && ClosedUnder(p, r) && Initial(p, 0) in r
    ensures World(0, Store(ExecRunning, PairRows(p, t, k, CLAIMED), None), map[], map[],
                        map[0 := FailWrite(Item(k, FAILED), ToLoop(1))]) in r
  {
    TriggerSettled(p, r, t, k);
    var w := World(0, Store(ExecRunning, PairRows(p, t, k, FreshRow(0)), None), map[], map[], map[0 := Load(1)]);
    PairReady(p, t, k, w.store.rows);
    ClaimFirst(p, r, w, 0, 1, 1);
    var w1 := World(0, Store(ExecRunning, PairRows(p, t, k, CLAIMED), None), map[], map[],
                    map[0 := Execute(Item(k, CLAIMED), ToLoop(1))]);
    assert w.store.rows[k := CLAIMED] == PairRows(p, t, k, CLAIMED);
    assert w.(store := Claim(w.store, k, 0), calls := w.calls[0 := Execute(Item(k, CLAIMED), ToLoop(1))]) == w1;
    assert Next(p, w1, Step(0, Refused)) == w1.(calls := map[0 := FailWrite(Item(k, FAILED), ToLoop(1))]);
  }

  lemma TriggerSettled(p: Plan, r: iset<World>, t: string, k: string)
    requires Pair(p, t, k) && ClosedUnder(p, r) && Initial(p, 0) in r
    ensures World(0, Store(ExecRunning, PairRows(p, t, k, FreshRow(0)), None), map[], map[], map[0 := Load(1)]) in r
  {
    var w0 := Initial(p, 0);
    BeginCall(p, r, w0, 0);
    var rows := map[t := FreshRow(0), k := FreshRow(0)];
    assert w0.store.rows == rows;
    var w := World(0, Store(ExecRunning, rows, None), map[], map[], map[0 := Load(0)]);
    assert w0.(store := w0.store.(status := ExecRunning), calls := w0.calls[0 := Load(0)]) == w;
    SettleFirst(p, r, w, 0, 0, 0);
    var row := SettledRow(p, t, FreshRow(0), 0);
    assert rows[t := row] == PairRows(p, t, k, FreshRow(0));
    assert w.(store := w.store.(rows := rows[t := row]), calls := w.calls[0 := Load(1)]) ==
           World(0, Store(ExecRunning, PairRows(p, t, k, FreshRow(0)), None), map[], map[], map[0 := Load(1)]);
  }

  /** A lease later a second call looks. */
  lemma LooksLater(p: Plan, r: iset<World>, t: string, k: string)
    requires Pair(p, t, k) && ClosedUnder(p, r) && Initial(p, 0) in r
    ensures World(LEASE, Store(ExecRunning, PairRows(p, t, k, CLAIMED), None), map[], map[],
                        map[0 := FailWrite(Item(k, FAILED), ToLoop(1)), 1 := Load(0)]) in r
  {
    AboutToFail(p, r, t, k);
    var fails := FailWrite(Item(k, FAILED), ToLoop(1));
    var w1 := World(0, Store(ExecRunning, PairRows(p, t, k, CLAIMED), None), map[], map[], map[0 := fails]);
    var w2 := w1.(now := LEASE);
    assert Next(p, w1, Tick(LEASE)) == w2;
    BeginCall(p, r, w2, 1);
    assert w2.(store := w2.store.(status := ExecRunning), calls := w2.calls[1 := Load(0)]) ==
           w2.(calls := map[0 := fails, 1 := Load(0)]);
  }

  /** It recovers the claim and does dispatch the task. */
  lemma DispatchedMeanwhile(p: Plan, r: iset<World>, t: string, k: string) returns (w: World)
    requires Pair(p, t, k) && ClosedUnder(p, r) && Initial(p, 0) in r
    ensures w in r && w.store == Store(ExecRunning, PairRows(p, t, k, LINKED), None)
    ensures 0 in w.calls && w.calls[0] == FailWrite(Item(k, FAILED), ToLoop(1))
  {
    LooksLater(p, r, t, k);
    var rows, fails := PairRows(p, t, k, CLAIMED), FailWrite(Item(k, FAILED), ToLoop(1));
    var w1 := World(LEASE, Store(ExecRunning, rows, None), map[], map[], map[0 := fails, 1 := Load(0)]);
    PairListed(p, t, k, rows);
    RecoverLast(p, r, w1, 1, [Item(t, rows[t])], Item(k, CLAIMED));
    var w2 := w1.(calls := w1.calls[1 := Execute(Item(k, CLAIMED), ToMirror(0, []))]);
    w := LinkedNow(p, r, w2, k, rows, fails);
    assert rows[k := LINKED] == PairRows(p, t, k, LINKED);
  }

  lemma PairListed(p: Plan, t: string, k: string, rows: map<string, Row>)
    requires Pair(p, t, k) && t in rows && k in rows
    ensures Listed(p.listing, rows) == [Item(t, rows[t])] + [Item(k, rows[k])]
  {
    assert p.listing[1..] == [k] && p.listing[1..][1..] == [];
    assert Listed([k], rows) == [Item(k, rows[k])];
  }

  lemma LinkedNow(p: Plan, r: iset<World>, w: World, k: string, rows: map<string, Row>, fails: Call) returns (v: World)
    requires w in r && ClosedUnder(p, r) && w.now == LEASE && w.tasks == map[] && w.store == Store(ExecRunning, rows, None)
    requires w.calls == map[0 := fails, 1 := Execute(Item(k, CLAIMED), ToMirror(0, []))]
    requires k in rows && rows[k] == CLAIMED && KindOf(p.def, k).Task? && Decoded(Task, ConfigOf(p.def, k))
    ensures v in r && v.store == Store(ExecRunning, rows[k := LINKED], None) && 0 in v.calls && v.calls[0] == fails
  {
    var w1 := Next(p, w, Step(1, Accepted(0)));
    assert TaskFor(w.tasks, k, 0) == 0;
    assert w1.calls[1] == Write(Item(k, LINKED), ToMirror(0, [])) && w1.store == w.store;
    v := Next(p, w1, Step(1, Refused));
  }

  /** For every such definition there is a run from a fresh execution that ends failed
      without a failed node: the failed row came too late, and the failure stood. */
  lemma FailsWithoutFailedNode(p: Plan, t: string, k: string) returns (es: seq<Event>)
    requires Pair(p, t, k)
    ensures var s := Run(p, Initial(p, 0), es).store; s.status.ExecFailed? && !AnyFailed(s.rows)
  {
    var w0 := Initial(p, 0);
    var r := ReachableFrom(p, w0);
    ReachableClosed(p, w0);
    var w := DispatchedMeanwhile(p, r, t, k);
    FailedNodeIff(p, w, 0);
    var w1 := Next(p, w, Step(0, Refused));
    assert Next(p, w1, Step(0, Refused)) in r;
    es :| Run(p, w0, es) == Next(p, w1, Step(0, Refused));
  }
}
