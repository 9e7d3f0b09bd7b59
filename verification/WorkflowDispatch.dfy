/** The executor dispatches as if it created or found a node's work in one step. Here
    that step is shown to be what the get-or-create protocol does on the shared tables. */
module WorkflowDispatch {
  import opened Common
  import opened ExecutionSteps
  import ExecutionLinks
  import opened Dispatch

  /** One execution as the dispatchers see it: its id, and each node's queue and request
      fingerprint, which its config and the execution's input determine. */
  datatype Site = Site(org: nat, execution: string, queue: string -> string, fingerprint: string -> string)

  function TaskKeyAt(x: Site, node: string): Option<Key> {
    NodeTaskKey(x.org, x.queue(node), x.execution, node)
  }

  /** The executor's tasks are the rows under its nodes' keys, with their fingerprints. */
  ghost predicate TasksAgree(x: Site, s: Table, tasks: map<nat, TaskRecord>) {
    && (forall t, node :: t in tasks && tasks[t].node == node <==> Holds(s, TaskKeyAt(x, node), t))
    && (forall t, node | Holds(s, TaskKeyAt(x, node), t) :: s[t].fingerprint == x.fingerprint(node))
  }

  lemma CreatedAgrees(x: Site, s: Table, tasks: map<nat, TaskRecord>, node: string, id: nat, state: TaskState)
    requires |x.execution| == UUID_LENGTH && TasksAgree(x, s, tasks)
    requires !Taken(s, TaskKeyAt(x, node)) && id !in s
    ensures id !in tasks
    ensures TasksAgree(x, s[id := Row(TaskKeyAt(x, node), x.fingerprint(node))], tasks[id := TaskRecord(node, state)])
  {
    var u, after := s[id := Row(TaskKeyAt(x, node), x.fingerprint(node))], tasks[id := TaskRecord(node, state)];
    assert id in tasks ==> Holds(s, TaskKeyAt(x, tasks[id].node), id);
    forall t, m
      ensures t in after && after[t].node == m <==> Holds(u, TaskKeyAt(x, m), t)
      ensures Holds(u, TaskKeyAt(x, m), t) ==> u[t].fingerprint == x.fingerprint(m)
    {
      NodeTaskKeyInjective(x.org, x.queue(node), x.execution, node, x.queue(m), x.execution, m);
      assert t != id ==> (Holds(u, TaskKeyAt(x, m), t) <==> Holds(s, TaskKeyAt(x, m), t));
    }
  }

  /** A get-or-create for a node of the execution returns the task the executor's step
      links, never conflicts, and leaves tables that agree again. */
  lemma TaskDispatchIsOneStep(x: Site, s: Table, tasks: map<nat, TaskRecord>, node: string, c: Caller, t: Table, r: Result)
    requires |x.execution| == UUID_LENGTH && TasksAgree(x, s, tasks) && ExecutionLinks.OneTaskPerNode(tasks)
    requires c.key == TaskKeyAt(x, node) && c.fingerprint == x.fingerprint(node) && AtOnce(s, c, t, r)
    ensures !r.Conflict?
    ensures r.Refused? ==> t == s
    ensures r.Reused? || r.Created? ==>
              && r.id == TaskFor(tasks, node, c.id)
              && TasksAgree(x, t, if r.id in tasks then tasks else tasks[r.id := TaskRecord(node, TaskState(TaskPending, 0, false))])
  {
    if Taken(s, c.key) {
      var id :| Holds(s, c.key, id) && r == Compare(s, id, c.fingerprint);
      assert id in tasks && tasks[id].node == node;
      assert TaskExists(tasks, node);
    } else {
      assert forall id | id in tasks && tasks[id].node == node :: Holds(s, c.key, id);
      if c.id !in s {
        CreatedAgrees(x, s, tasks, node, c.id, TaskState(TaskPending, 0, false));
      }
    }
  }

  /** Likewise for deliveries, whose key is derived from execution and node. */
  ghost predicate DeliveriesAgree(uuid5: string -> nat, execution: string, s: Table, deliveries: set<string>) {
    forall node :: node in deliveries <==> Taken(s, Some(DeliveryKey(uuid5(NodeDeliveryName(execution, node)))))
  }

  lemma DeliveryDispatchIsOneStep(uuid5: string -> nat, execution: string, s: Table, deliveries: set<string>, node: string,
                                  c: Caller, t: Table, r: Result)
    requires Injective(uuid5) && |execution| == UUID_LENGTH && DeliveriesAgree(uuid5, execution, s, deliveries)
    requires c.key == Some(DeliveryKey(uuid5(NodeDeliveryName(execution, node)))) && AtOnce(s, c, t, r)
    ensures r.Refused? ==> t == s
    ensures !r.Refused? ==> DeliveriesAgree(uuid5, execution, t, deliveries + {node})
  {
    if Taken(s, c.key) {
      assert node in deliveries && deliveries + {node} == deliveries;
    } else if c.id !in s {
      assert Holds(t, c.key, c.id);
      forall m
        ensures m in deliveries + {node} <==> Taken(t, Some(DeliveryKey(uuid5(NodeDeliveryName(execution, m)))))
      {
        var key := Some(DeliveryKey(uuid5(NodeDeliveryName(execution, m))));
        NodeDeliveryKeyInjective(uuid5, execution, node, execution, m);
        if m in deliveries {
          var id :| Holds(s, key, id);
          assert Holds(t, key, id);
        }
        if id :| Holds(t, key, id) {
          assert id != c.id ==> Holds(s, key, id);
        }
      }
    }
  }
}
