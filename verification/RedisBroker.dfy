/** The broker's methods on keys held in place, scope by scope, each proved against
    the operation of the same name. */
module RedisBroker {
  import opened Common
  import opened Broker

  lemma FirstUnique(z: ZSet, x: Member)
    requires IsFirst(z, x)
    ensures z != map[] && First(z) == x
  {
    assert Before(z, x, First(z)) && Before(z, First(z), x);
  }

  /** ZRANGE key 0 0. */
  method ZRangeFirst(z: ZSet) returns (x: Member)
    requires z != map[]
    ensures x == First(z)
  {
    var left := z.Keys;
    x :| x in left;
    left := left - {x};
    while left != {}
      invariant x in z && left <= z.Keys
      invariant forall y | y in z && y !in left :: Before(z, x, y)
      decreases left
    {
      var y :| y in left;
      left := left - {y};
      if Before(z, y, x) {
        x := y;
      }
    }
    FirstUnique(z, x);
  }

  /** ZRANGEBYSCORE key -inf now LIMIT 0 limit. */
  method ZRangeDue(z: ZSet, now: int, limit: nat) returns (members: seq<Member>)
    ensures members == Due(z, now, limit)
  {
    members := [];
    var left, room := z, limit;
    while room > 0 && left != map[]
      invariant members + Due(left, now, room) == Due(z, now, limit)
    {
      var x := ZRangeFirst(left);
      if left[x] > now {
        return;
      }
      members := members + [x];
      left, room := left - {x}, room - 1;
    }
  }

  method PromoteMember(s0: State, m: Member) returns (s: State)
    ensures s == Promote(s0, m)
  {
    s := s0.(delayed := s0.delayed - {m});
    var priority := if m in s.priorities then s.priorities[m] else 0;
    s := s.(sequence := s.sequence + 1);
    s := s.(pending := s.pending[m := (9 - priority) * BUCKET + s.sequence]);
  }

  type Scopes = map<Scope, State>

  /** A scope without keys reads as empty. */
  function Read(scopes: Scopes, scope: Scope): State {
    if scope in scopes then scopes[scope] else EMPTY
  }

  class RedisBroker {
    var scopes: Scopes

    function At(scope: Scope): State
      reads this
    {
      Read(scopes, scope)
    }

    twostate predicate OnlyScope(scope: Scope)
      reads this
    {
      forall other | other != scope :: At(other) == old(At(other))
    }

    method Enqueue(scope: Scope, m: Member, priority: int)
      modifies this
      ensures At(scope) == Broker.Enqueue(old(At(scope)), m, priority) && OnlyScope(scope)
    {
      var s := At(scope);
      var clamped := if priority < 0 then 0 else if priority > 9 then 9 else priority;
      s := s.(priorities := s.priorities[m := clamped]);
      s := s.(sequence := s.sequence + 1);
      s := s.(pending := s.pending[m := (9 - clamped) * BUCKET + s.sequence]);
      scopes := scopes[scope := s];
    }

    method Dequeue(scope: Scope) returns (m: Option<Member>)
      modifies this
      ensures (At(scope), m) == Broker.Dequeue(old(At(scope))) && OnlyScope(scope)
    {
      var s := At(scope);
      if s.pending == map[] {
        return None;
      }
      var first := ZRangeFirst(s.pending);
      var score := s.pending[first];
      s := s.(pending := s.pending - {first});
      s := s.(processing := s.processing[first := score]);
      scopes := scopes[scope := s];
      m := Some(first);
    }

    method Ack(scope: Scope, m: Member)
      modifies this
      ensures At(scope) == Broker.Ack(old(At(scope)), m) && OnlyScope(scope)
    {
      var s := At(scope);
      s := s.(processing := s.processing - {m});
      s := s.(priorities := s.priorities - {m});
      scopes := scopes[scope := s];
    }

    method Nack(scope: Scope, m: Member, delay: int, now: int)
      modifies this
      ensures At(scope) == (if delay <= 0 then NackNow(old(At(scope)), m) else NackLater(old(At(scope)), m, now + delay))
      ensures OnlyScope(scope)
    {
      var s := At(scope);
      s := s.(processing := s.processing - {m});
      if delay <= 0 {
        var priority := if m in s.priorities then s.priorities[m] else 0;
        s := s.(sequence := s.sequence + 1);
        s := s.(pending := s.pending[m := (9 - priority) * BUCKET + s.sequence]);
      } else {
        s := s.(delayed := s.delayed[m := now + delay]);
      }
      scopes := scopes[scope := s];
    }

    method EnqueueDelayed(scope: Scope, m: Member, priority: int, delay: int, now: int)
      modifies this
      ensures At(scope) == Broker.EnqueueDelayed(old(At(scope)), m, priority, now + delay) && OnlyScope(scope)
    {
      var s := At(scope);
      s := s.(priorities := s.priorities[m := Clamp(priority)]);
      s := s.(delayed := s.delayed[m := now + delay]);
      scopes := scopes[scope := s];
    }

    method MoveToDeadLetter(scope: Scope, m: Member)
      modifies this
      ensures At(scope) == Broker.MoveToDeadLetter(old(At(scope)), m) && OnlyScope(scope)
    {
      var s := At(scope);
      s := s.(processing := s.processing - {m});
      s := s.(pending := s.pending - {m});
      s := s.(delayed := s.delayed - {m});
      s := s.(priorities := s.priorities - {m});
      s := s.(deadLetters := [m] + s.deadLetters);
      scopes := scopes[scope := s];
    }

    method PromoteDueDelayed(scope: Scope, now: int) returns (promoted: nat)
      modifies this
      ensures (At(scope), promoted) == PromoteDue(old(At(scope)), now) && OnlyScope(scope)
    {
      var s := At(scope);
      var members := ZRangeDue(s.delayed, now, BATCH);
      promoted := 0;
      for k := 0 to |members|
        invariant promoted == k && scopes == old(scopes)
        invariant s == PromoteEach(old(At(scope)), members[..k])
      {
        assert members[..k + 1][..k] == members[..k];
        s := PromoteMember(s, members[k]);
        promoted := promoted + 1;
      }
      assert members[..|members|] == members;
      scopes := scopes[scope := s];
    }

    method Remove(scope: Scope, m: Member)
      modifies this
      ensures At(scope) == Broker.Remove(old(At(scope)), m) && OnlyScope(scope)
    {
      var s := At(scope);
      s := s.(pending := s.pending - {m});
      s := s.(processing := s.processing - {m});
      s := s.(delayed := s.delayed - {m});
      s := s.(priorities := s.priorities - {m});
      s := s.(deadLetters := Dropped(s.deadLetters, m));
      scopes := scopes[scope := s];
    }
  }
}
