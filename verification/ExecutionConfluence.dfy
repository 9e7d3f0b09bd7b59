/** Confluence: the meaning of a definition for an input, and the proof that every
    interleaving of the executor agrees with it. */
module ExecutionConfluence {
  import opened Graphs
  import opened Common
  import opened Workflow
  import opened Validation
  import opened ExecutionStore
  import opened ExecutionSteps
  import opened ExecutionSafety
  import opened ExecutionRuns
  import opened ExecutionMeaning

  // ----- the meaning of a definition

  /** The edge carries on from a source that ran. */
  predicate Selects(p: Plan, e: Edge) {
    !KindOf(p.def, e.source).Condition? || e.condition.Unlabelled? || e.condition == Branch(Answer(p, e.source))
  }

  ghost predicate RanksEdges(d: Definition, rank: map<string, nat>) {
    forall e | e in d.edges :: e.source in rank && e.target in rank && rank[e.source] < rank[e.target]
  }

  /** A node is reached if it is a trigger or some edge from a reached node selects it. */
  ghost function Reached(p: Plan, rank: map<string, nat>, node: string): bool
    requires RanksEdges(p.def, rank)
    decreases if node in rank then rank[node] else 0
  {
    KindOf(p.def, node).Trigger?
    || exists e | e in p.def.edges && e.target == node :: Reached(p, rank, e.source) && Selects(p, e)
  }

  lemma SoundRanks(d: Definition) returns (rank: map<string, nat>)
    requires Sound(d)
    ensures RanksEdges(d, rank)
  {
    var g := GraphOf(d);
    rank := RankWithin(g, g.nodes, 0);
    forall e | e in d.edges
      ensures e.source in rank && e.target in rank && rank[e.source] < rank[e.target]
    {
      EdgeResolved(d, e);
      IdsHasNode(d, e.source);
      IdsHasNode(d, e.target);
      assert (e.source, e.target) in g.edges;
    }
  }

  ghost function RankOf(d: Definition): (rank: map<string, nat>)
    requires Sound(d)
    ensures RanksEdges(d, rank)
  {
    RanksExist(d);
    var rank :| RanksEdges(d, rank);
    rank
  }

  lemma RanksExist(d: Definition)
    requires Sound(d)
    ensures exists rank :: RanksEdges(d, rank)
  {
    var rank := SoundRanks(d);
  }

  /** The status every node ends with when the execution succeeds. */
  ghost function Meaning(p: Plan): map<string, NodeStatus>
    requires Sound(p.def)
  {
    map n | n in Ids(p.def) :: if Reached(p, RankOf(p.def), n) then Succeeded else Skipped
  }

  /** The defining equation: a node is skipped exactly when it is not a trigger and
      no incoming edge is active. */
  lemma MeaningEquation(p: Plan, n: string)
    requires Sound(p.def) && n in Ids(p.def)
    ensures Meaning(p)[n].Skipped? <==>
              && !KindOf(p.def, n).Trigger?
              && forall e | e in p.def.edges && e.target == n ::
                   e.source in Meaning(p) && !(Meaning(p)[e.source].Succeeded? && Selects(p, e))
  {
    forall e | e in p.def.edges
      ensures e.source in Meaning(p)
    {
      EdgeResolved(p.def, e);
      IdsHasNode(p.def, e.source);
    }
  }

  /** It depends on the definition and the input only. */
  lemma {:induction false} ReachedIgnoresListing(p: Plan, q: Plan, rank: map<string, nat>, node: string)
    requires p.def == q.def && p.input == q.input && RanksEdges(p.def, rank)
    ensures Reached(p, rank, node) == Reached(q, rank, node)
    decreases if node in rank then rank[node] else 0
  {
    forall e | e in p.def.edges && e.target == node
      ensures Reached(p, rank, e.source) == Reached(q, rank, e.source) && Selects(p, e) == Selects(q, e)
    {
      ReachedIgnoresListing(p, q, rank, e.source);
    }
  }

  // ----- settled rows agree with the meaning

  lemma ActiveSelects(p: Plan, rows: map<string, Row>, e: Edge)
    requires e.source in rows && RowFits(p, e.source, rows[e.source]) && Settled(rows[e.source].status)
    requires KindOf(p.def, e.source).Condition? ==> BranchParses(e.condition)
    ensures EdgeVerdict(p.def, rows, e) ==
              if rows[e.source].status.Succeeded? && Selects(p, e) then Active else Inactive
  {
  }

  ghost predicate SucceededRight(p: Plan, w: World) {
    forall n | n in w.store.rows && w.store.rows[n].status.Succeeded? :: NodeRuns(p, w.store.rows, n)
  }

  /** Every row that shows execution belongs to a node that runs. */
  ghost predicate ExecutedRight(p: Plan, w: World) {
    forall n | n in w.store.rows && Committed(w.store.rows[n]) :: NodeRuns(p, w.store.rows, n)
  }

  lemma {:induction false} SettledAgrees(p: Plan, rank: map<string, nat>, w: World, n: string)
    requires Sound(p.def) && RanksEdges(p.def, rank)
    requires Consistent(p, w) && SkipsRight(p, w) && SucceededRight(p, w)
    requires n in w.store.rows && Settled(w.store.rows[n].status)
    ensures w.store.rows[n].status.Succeeded? <==> Reached(p, rank, n)
    decreases if n in rank then rank[n] else 0
  {
    var rows := w.store.rows;
    forall e | e in p.def.edges && e.target == n && e.source in rows && Settled(rows[e.source].status)
      ensures rows[e.source].status.Succeeded? <==> Reached(p, rank, e.source)
      ensures EdgeVerdict(p.def, rows, e) == if Reached(p, rank, e.source) && Selects(p, e) then Active else Inactive
    {
      SettledAgrees(p, rank, w, e.source);
      SoundBranch(p.def, e);
      ActiveSelects(p, rows, e);
    }
    if rows[n].status.Succeeded? && !KindOf(p.def, n).Trigger? {
      var e :| e in p.def.edges && e.target == n && EdgeVerdict(p.def, rows, e).Active?;
      assert e.source in rows && Settled(rows[e.source].status);
    } else if rows[n].status.Skipped? {
      assert NodeSkips(p, rows, n);
      forall e | e in p.def.edges && e.target == n
        ensures !(Reached(p, rank, e.source) && Selects(p, e))
      {
        assert EdgeVerdict(p.def, rows, e).Inactive?;
      }
    }
  }

  lemma {:induction false} FindIs(nodes: seq<Node>, id: string)
    requires exists i | 0 <= i < |nodes| :: nodes[i].id == id
    ensures Find(nodes, id) == Some(nodes[FirstIndex(nodes, id)])
  {
    if nodes[0].id != id {
      var i :| 0 <= i < |nodes| && nodes[i].id == id;
      assert nodes[1..][i - 1].id == id;
      FindIs(nodes[1..], id);
    }
  }

  lemma SoundBranch(d: Definition, e: Edge)
    requires Sound(d) && e in d.edges
    ensures KindOf(d, e.source).Condition? ==> BranchParses(e.condition)
  {
    EdgeResolved(d, e);
    FindIs(d.nodes, e.source);
    var i :| 0 <= i < |d.edges| && d.edges[i] == e;
  }

  // ----- runs

  ghost predicate RunHolds(p: Plan, w: World) {
    Invariant(p, w) && SkipsRight(p, w) && WritesShow(w)
  }

  lemma {:induction false} EveryRunHolds(p: Plan, now: int, es: seq<Event>)
    ensures RunHolds(p, Run(p, Initial(p, now), es))
  {
    InitialInvariant(p, now);
    RunInvariant(p, Initial(p, now), es);
    if es != [] {
      var w := Run(p, Initial(p, now), es[..|es| - 1]);
      EveryRunHolds(p, now, es[..|es| - 1]);
      NextSkipsRight(p, w, es[|es| - 1]);
      NextWritesShow(p, w, es[|es| - 1]);
    }
  }

  /** Somewhere in the run an executed row was stored over a claim held for skipping. */
  ghost predicate Stolen(p: Plan, w: World, es: seq<Event>, n: string) {
    es != [] && (Stolen(p, w, es[..|es| - 1], n) || Steals(p, Run(p, w, es[..|es| - 1]), es[|es| - 1], n))
  }

  lemma {:induction false} StolenBefore(p: Plan, w: World, es: seq<Event>, m: nat, n: string)
    requires m <= |es| && Stolen(p, w, es[..m], n)
    ensures Stolen(p, w, es, n)
  {
    if m < |es| {
      assert es[..|es| - 1][..m] == es[..m];
      StolenBefore(p, w, es[..|es| - 1], m, n);
    } else {
      assert es[..m] == es;
    }
  }

  lemma {:induction false} UnstolenMeans(p: Plan, now: int, es: seq<Event>, n: string)
    requires n in Ids(p.def) && !Stolen(p, Initial(p, now), es, n)
    ensures var w := Run(p, Initial(p, now), es); n in w.store.rows && RowMeans(p, w, n)
  {
    if es != [] {
      var m := |es| - 1;
      UnstolenMeans(p, now, es[..m], n);
      EveryRunHolds(p, now, es[..m]);
      NextRowMeans(p, Run(p, Initial(p, now), es[..m]), es[m], n);
    }
  }

  lemma StillSkips(p: Plan, w: World, e: Event, n: string)
    requires Consistent(p, w) && NodeSkips(p, w.store.rows, n)
    ensures NodeSkips(p, Next(p, w, e).store.rows, n)
  {
    UpdateOfFits(p, w, e);
    SkipsKept(p, w.store, Next(p, w, e).store, n);
  }

  lemma {:induction false} StolenWasSkipped(p: Plan, now: int, es: seq<Event>, n: string)
    requires Stolen(p, Initial(p, now), es, n)
    ensures NodeSkips(p, Run(p, Initial(p, now), es).store.rows, n)
  {
    var m := |es| - 1;
    var w := Run(p, Initial(p, now), es[..m]);
    EveryRunHolds(p, now, es[..m]);
    if Stolen(p, Initial(p, now), es[..m], n) {
      StolenWasSkipped(p, now, es[..m], n);
    } else {
      StealBreaks(p, w, es[m], n);
    }
    StillSkips(p, w, es[m], n);
  }

  ghost predicate NothingStolen(p: Plan, now: int, es: seq<Event>) {
    forall n :: !Stolen(p, Initial(p, now), es, n)
  }

  ghost predicate ExecutedRightAfter(p: Plan, now: int, es: seq<Event>, k: nat)
    requires k <= |es|
  {
    ExecutedRight(p, Run(p, Initial(p, now), es[..k]))
  }

  lemma {:induction false} StolenShows(p: Plan, now: int, es: seq<Event>, n: string) returns (k: nat)
    requires Stolen(p, Initial(p, now), es, n)
    ensures k <= |es| && !ExecutedRightAfter(p, now, es, k)
  {
    var m := |es| - 1;
    if Stolen(p, Initial(p, now), es[..m], n) {
      k := StolenShows(p, now, es[..m], n);
      assert es[..m][..k] == es[..k];
    } else {
      k := |es|;
      EveryRunHolds(p, now, es[..m]);
      StealBreaks(p, Run(p, Initial(p, now), es[..m]), es[m], n);
      assert es[..k] == es;
    }
  }

  /** The exact guard: a run executes only nodes that run if and only if no event stores
      an executed row over a claim held for skipping. */
  lemma ExecutedRightIffNothingStolen(p: Plan, now: int, es: seq<Event>)
    ensures (forall k: nat | k <= |es| :: ExecutedRightAfter(p, now, es, k)) <==> NothingStolen(p, now, es)
  {
    if n :| Stolen(p, Initial(p, now), es, n) {
      var k := StolenShows(p, now, es, n);
    } else {
      forall k: nat | k <= |es|
        ensures ExecutedRightAfter(p, now, es, k)
      {
        UnstolenExecutedRight(p, now, es, k);
      }
    }
  }

  lemma UnstolenExecutedRight(p: Plan, now: int, es: seq<Event>, k: nat)
    requires k <= |es| && NothingStolen(p, now, es)
    ensures ExecutedRightAfter(p, now, es, k)
  {
    var w := Run(p, Initial(p, now), es[..k]);
    EveryRunHolds(p, now, es[..k]);
    forall n | n in w.store.rows && Committed(w.store.rows[n])
      ensures NodeRuns(p, w.store.rows, n)
    {
      if Stolen(p, Initial(p, now), es[..k], n) {
        StolenBefore(p, Initial(p, now), es, k, n);
      }
      UnstolenMeans(p, now, es[..k], n);
    }
  }

  /** In every state of a run in which nothing was stolen, each settled node has the
      status the meaning gives it, whether or not the execution ever succeeds. */
  lemma SettledNodesAgree(p: Plan, now: int, es: seq<Event>, n: string)
    requires Sound(p.def) && NothingStolen(p, now, es)
    requires var rows := Run(p, Initial(p, now), es).store.rows;
             n in rows && Settled(rows[n].status)
    ensures n in Meaning(p) && Run(p, Initial(p, now), es).store.rows[n].status == Meaning(p)[n]
  {
    EveryRunHolds(p, now, es);
    UnstolenExecutedRight(p, now, es, |es|);
    assert es[..|es|] == es;
    SettledAgrees(p, RankOf(p.def), Run(p, Initial(p, now), es), n);
  }

  ghost function Statuses(s: Store): map<string, NodeStatus> {
    map n | n in s.rows :: s.rows[n].status
  }

  /** No stolen node was left succeeded: none was stolen, or its skip was written after
      all. */
  ghost predicate StolenSkippedAfterAll(p: Plan, now: int, es: seq<Event>) {
    var w := Run(p, Initial(p, now), es);
    forall n | n in w.store.rows && Stolen(p, Initial(p, now), es, n) :: w.store.rows[n].status.Skipped?
  }

  /** A run that succeeds ends in the meaning if and only if no node whose skip claim was
      taken over has succeeded. */
  lemma SucceededIsMeaning(p: Plan, now: int, es: seq<Event>)
    requires Sound(p.def) && Run(p, Initial(p, now), es).store.status.ExecSucceeded?
    ensures Statuses(Run(p, Initial(p, now), es).store) == Meaning(p) <==> StolenSkippedAfterAll(p, now, es)
  {
    if StolenSkippedAfterAll(p, now, es) {
      SkippedAfterAllMeans(p, now, es);
    }
    if Statuses(Run(p, Initial(p, now), es).store) == Meaning(p) {
      MeaningSkipsStolen(p, now, es);
    }
  }

  lemma MeaningSkipsStolen(p: Plan, now: int, es: seq<Event>)
    requires Sound(p.def) && Statuses(Run(p, Initial(p, now), es).store) == Meaning(p)
    ensures StolenSkippedAfterAll(p, now, es)
  {
    var w := Run(p, Initial(p, now), es);
    EveryRunHolds(p, now, es);
    forall n | n in w.store.rows && Stolen(p, Initial(p, now), es, n)
      ensures w.store.rows[n].status.Skipped?
    {
      StolenWasSkipped(p, now, es, n);
      SkippedByMeaning(p, w, n);
    }
  }

  lemma SkippedAfterAllMeans(p: Plan, now: int, es: seq<Event>)
    requires Sound(p.def) && Run(p, Initial(p, now), es).store.status.ExecSucceeded?
    requires StolenSkippedAfterAll(p, now, es)
    ensures Statuses(Run(p, Initial(p, now), es).store) == Meaning(p)
  {
    SkippedAfterAllRight(p, now, es);
    TerminalAgreement(p, now, es);
    EveryRunHolds(p, now, es);
    AllSettledAgree(p, Run(p, Initial(p, now), es));
  }

  lemma AllSettledAgree(p: Plan, w: World)
    requires Sound(p.def) && Consistent(p, w) && SkipsRight(p, w) && SucceededRight(p, w) && AllSettled(w.store.rows)
    ensures Statuses(w.store) == Meaning(p)
  {
    forall n | n in w.store.rows
      ensures n in Meaning(p) && w.store.rows[n].status == Meaning(p)[n]
    {
      SettledAgrees(p, RankOf(p.def), w, n);
    }
  }

  lemma SkippedAfterAllRight(p: Plan, now: int, es: seq<Event>)
    requires StolenSkippedAfterAll(p, now, es) && Run(p, Initial(p, now), es).store.status.ExecSucceeded?
    ensures SucceededRight(p, Run(p, Initial(p, now), es))
  {
    var w := Run(p, Initial(p, now), es);
    EveryRunHolds(p, now, es);
    forall n | n in w.store.rows && w.store.rows[n].status.Succeeded?
      ensures NodeRuns(p, w.store.rows, n)
    {
      UnstolenMeans(p, now, es, n);
    }
  }

  /** If every row has the status of the meaning, a node none of whose edges is active
      is skipped. */
  lemma SkippedByMeaning(p: Plan, w: World, n: string)
    requires Sound(p.def) && Consistent(p, w) && Statuses(w.store) == Meaning(p)
    requires n in w.store.rows && NodeSkips(p, w.store.rows, n)
    ensures w.store.rows[n].status.Skipped?
  {
    MeaningEquation(p, n);
    forall e | e in p.def.edges && e.target == n
      ensures e.source in Meaning(p) && !(Meaning(p)[e.source].Succeeded? && Selects(p, e))
    {
      assert EdgeVerdict(p.def, w.store.rows, e).Inactive?;
      SoundBranch(p.def, e);
      ActiveSelects(p, w.store.rows, e);
      assert Statuses(w.store)[e.source] == Meaning(p)[e.source];
    }
    assert Statuses(w.store)[n] == Meaning(p)[n];
  }

  /** Confluence: any two runs of one definition and input that succeed, and in which no
      node whose skip claim was taken over has succeeded, settle every node the same way. */
  lemma Confluence(p: Plan, q: Plan, now1: int, now2: int, es1: seq<Event>, es2: seq<Event>)
    requires p.def == q.def && p.input == q.input && Sound(p.def)
    requires StolenSkippedAfterAll(p, now1, es1) && StolenSkippedAfterAll(q, now2, es2)
    requires Run(p, Initial(p, now1), es1).store.status.ExecSucceeded?
    requires Run(q, Initial(q, now2), es2).store.status.ExecSucceeded?
    ensures Statuses(Run(p, Initial(p, now1), es1).store) == Statuses(Run(q, Initial(q, now2), es2).store)
  {
    SucceededIsMeaning(p, now1, es1);
    SucceededIsMeaning(q, now2, es2);
    forall n | n in Ids(p.def)
      ensures Meaning(p)[n] == Meaning(q)[n]
    {
      ReachedIgnoresListing(p, q, RankOf(p.def), n);
    }
  }

  // ----- skips written in time are never stolen

  /** Throughout the run, every skip claim is written within its lease. */
  ghost predicate Timely(p: Plan, w: World, es: seq<Event>) {
    forall k | 0 <= k <= |es| :: SkipsInTime(Run(p, w, es[..k]))
  }

  lemma TimelyBefore(p: Plan, w: World, es: seq<Event>, m: nat)
    requires Timely(p, w, es) && m <= |es|
    ensures Timely(p, w, es[..m])
  {
    forall k | 0 <= k <= m
      ensures SkipsInTime(Run(p, w, es[..m][..k]))
    {
      assert es[..m][..k] == es[..k];
    }
  }

  lemma {:induction false} RunInEveryTimelyRun(p: Plan, now: int, es: seq<Event>)
    requires Timely(p, Initial(p, now), es)
    ensures RunsRight(p, Run(p, Initial(p, now), es))
  {
    if es != [] {
      var m := |es| - 1;
      TimelyBefore(p, Initial(p, now), es, m);
      RunInEveryTimelyRun(p, now, es[..m]);
      EveryRunHolds(p, now, es[..m]);
      NextRunsRight(p, Run(p, Initial(p, now), es[..m]), es[m]);
    }
  }

  lemma {:induction false} TimelyNothingStolen(p: Plan, now: int, es: seq<Event>, n: string)
    requires Timely(p, Initial(p, now), es)
    ensures !Stolen(p, Initial(p, now), es, n)
  {
    if es != [] {
      var m := |es| - 1;
      TimelyBefore(p, Initial(p, now), es, m);
      TimelyNothingStolen(p, now, es[..m], n);
      RunInEveryTimelyRun(p, now, es[..m]);
      EveryRunHolds(p, now, es[..m]);
      assert es[..m] == es[..m][..m];
      TimelyNotStolen(p, Run(p, Initial(p, now), es[..m]), es[m], n);
    }
  }

  /** With skips written in time, every run that succeeds ends in the meaning. */
  lemma TimelyIsMeaning(p: Plan, now: int, es: seq<Event>)
    requires Sound(p.def) && Timely(p, Initial(p, now), es)
    requires Run(p, Initial(p, now), es).store.status.ExecSucceeded?
    ensures Statuses(Run(p, Initial(p, now), es).store) == Meaning(p)
  {
    forall n
      ensures !Stolen(p, Initial(p, now), es, n)
    {
      TimelyNothingStolen(p, now, es, n);
    }
    SucceededIsMeaning(p, now, es);
  }
}
