/** What a run records of its conditions is what they ask of the input, and edges carry
    on accordingly. */
module ExecutionAnswers {
  import opened Common
  import opened Workflow
  import opened Conditions
  import opened ExecutionStore
  import opened ExecutionSteps
  import opened ExecutionSafety
  import opened ExecutionRuns
  import opened ExecutionConfluence

  /** In every run, a succeeded condition has recorded whether the input satisfies it. */
  lemma ConditionRecordsAnswer(p: Plan, now: int, es: seq<Event>, node: string)
    requires KindOf(p.def, node).Condition?
    requires var rows := Run(p, Initial(p, now), es).store.rows; node in rows && rows[node].status.Succeeded?
    ensures var row := Run(p, Initial(p, now), es).store.rows[node];
            && Decoded(Condition, ConfigOf(p.def, node))
            && row.output.Some? && row.output.value.ConditionResult?
            && (row.output.value.result <==> Satisfied(ConfigOf(p.def, node), p.input))
  {
    InitialInvariant(p, now);
    RunInvariant(p, Initial(p, now), es);
    assert RowFits(p, node, Run(p, Initial(p, now), es).store.rows[node]);
    EvaluateIffSatisfied(ConfigOf(p.def, node), p.input);
  }

  /** So an edge from a condition that ran carries on if and only if it has no label, or
      asks for the branch the input satisfies. */
  lemma BranchFollowsAnswer(p: Plan, e: Edge)
    requires KindOf(p.def, e.source).Condition? && Decoded(Condition, ConfigOf(p.def, e.source)) && BranchParses(e.condition)
    ensures Selects(p, e) <==> e.condition.Unlabelled? || (e.condition.on <==> Satisfied(ConfigOf(p.def, e.source), p.input))
  {
    EvaluateIffSatisfied(ConfigOf(p.def, e.source), p.input);
  }

  /** And a succeeded trigger has passed the input on. */
  lemma TriggerPassesInput(p: Plan, now: int, es: seq<Event>, node: string)
    requires KindOf(p.def, node).Trigger?
    requires var rows := Run(p, Initial(p, now), es).store.rows; node in rows && rows[node].status.Succeeded?
    ensures var output := Run(p, Initial(p, now), es).store.rows[node].output;
            (output == Some(InputEcho) <==> p.input.Some?) && (output.None? <==> p.input.None?)
  {
    InitialInvariant(p, now);
    RunInvariant(p, Initial(p, now), es);
    assert RowFits(p, node, Run(p, Initial(p, now), es).store.rows[node]);
  }
}
