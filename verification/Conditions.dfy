/** What a condition asks of the input, said without a way to compute it: a path of names
    leads through nested objects to a value. */
module Conditions {
  import opened Common
  import opened Workflow

  predicate DotFree(name: string) {
    '.' !in name
  }

  /** The names of a path, with dots between them. */
  function Joined(names: seq<string>): string
    requires names != []
  {
    if |names| == 1 then names[0] else names[0] + "." + Joined(names[1..])
  }

  /** The i-th value is an object that holds the next one under the i-th name. */
  ghost predicate Holds(chain: seq<Json>, names: seq<string>, i: nat)
    requires i < |names| && |chain| == |names| + 1
  {
    chain[i].Object? && names[i] in chain[i].fields && chain[i].fields[names[i]] == chain[i + 1]
  }

  ghost predicate Descends(chain: seq<Json>, names: seq<string>) {
    |chain| == |names| + 1 && forall i: nat | i < |names| :: Holds(chain, names, i)
  }

  ghost predicate LeadsTo(root: Json, names: seq<string>, v: Json, chain: seq<Json>) {
    Descends(chain, names) && chain[0] == root && chain[|names|] == v
  }

  ghost predicate ResolvesBy(root: Json, path: string, v: Json, names: seq<string>) {
    && names != [] && (forall i | 0 <= i < |names| :: DotFree(names[i])) && Joined(names) == path
    && exists chain :: LeadsTo(root, names, v, chain)
  }

  ghost predicate Resolves(root: Json, path: string, v: Json) {
    exists names :: ResolvesBy(root, path, v, names)
  }

  /** The answer the operator calls for. An absent input holds nothing. */
  ghost predicate Satisfied(config: Config, input: Option<Json>)
    requires Decoded(Condition, config)
  {
    var root := if input.Some? then input.value else Object(map[]);
    var path := config.field[|FIELD_PREFIX|..];
    match config.operator
    case "exists" => exists v :: Resolves(root, path, v)
    case "equals" => config.operand.Some? && Resolves(root, path, config.operand.value)
    case _ => config.operand.Some? && !Resolves(root, path, config.operand.value)
  }

  // ----- splitting a path

  lemma {:induction false} PartsJoin(path: string)
    ensures (forall i | 0 <= i < |Parts(path)| :: DotFree(Parts(path)[i])) && Joined(Parts(path)) == path
  {
    if path != "" {
      var rest := Parts(path[1..]);
      PartsJoin(path[1..]);
      if path[0] == '.' {
        assert ([""] + rest)[1..] == rest;
      } else {
        var parts := [[path[0]] + rest[0]] + rest[1..];
        assert parts[1..] == rest[1..];
        assert path == [path[0]] + path[1..];
        if |rest| > 1 {
          assert Joined(parts) == [path[0]] + rest[0] + "." + Joined(rest[1..]);
        }
      }
    }
  }

  /** Splitting undoes joining. */
  lemma {:induction false} JoinParts(names: seq<string>)
    requires names != [] && forall i | 0 <= i < |names| :: DotFree(names[i])
    ensures Parts(Joined(names)) == names
    decreases |names|, |names[0]|
  {
    var path := Joined(names);
    if names[0] == "" {
      if |names| > 1 {
        JoinParts(names[1..]);
        assert path[0] == '.' && path[1..] == Joined(names[1..]);
        assert [""] + names[1..] == names;
      }
    } else {
      var shorter := [names[0][1..]] + names[1..];
      assert shorter[1..] == names[1..];
      assert forall i | 0 < i < |names| :: DotFree(names[i]) && shorter[i] == names[i];
      JoinParts(shorter);
      assert path[0] == names[0][0] && path[1..] == Joined(shorter);
      assert [names[0][0]] + names[0][1..] == names[0];
      assert [names[0]] + names[1..] == names;
    }
  }

  // ----- following it

  lemma {:induction false} LookupLeads(root: Json, names: seq<string>, v: Json) returns (chain: seq<Json>)
    requires Lookup(root, names) == Some(v)
    ensures LeadsTo(root, names, v, chain)
    decreases |names|
  {
    if names == [] {
      chain := [root];
    } else {
      var rest := LookupLeads(root.fields[names[0]], names[1..], v);
      chain := [root] + rest;
      forall i: nat | i < |names|
        ensures Holds(chain, names, i)
      {
        if i > 0 {
          assert Holds(rest, names[1..], i - 1);
        }
      }
    }
  }

  lemma {:induction false} LeadsLookup(root: Json, names: seq<string>, v: Json, chain: seq<Json>)
    requires LeadsTo(root, names, v, chain)
    ensures Lookup(root, names) == Some(v)
    decreases |names|
  {
    if names != [] {
      assert Holds(chain, names, 0);
      var rest := chain[1..];
      forall i: nat | i < |names[1..]|
        ensures Holds(rest, names[1..], i)
      {
        assert Holds(chain, names, i + 1);
      }
      LeadsLookup(chain[1], names[1..], v, rest);
    }
  }

  lemma LookupIffResolves(root: Json, path: string, v: Json)
    ensures Lookup(root, Parts(path)) == Some(v) <==> Resolves(root, path, v)
  {
    if Lookup(root, Parts(path)) == Some(v) {
      PartsJoin(path);
      var chain := LookupLeads(root, Parts(path), v);
      assert ResolvesBy(root, path, v, Parts(path));
    }
    if Resolves(root, path, v) {
      var names :| ResolvesBy(root, path, v, names);
      JoinParts(names);
      var chain :| LeadsTo(root, names, v, chain);
      LeadsLookup(root, names, v, chain);
    }
  }

  /** What a condition node records is what its operator asks. */
  lemma EvaluateIffSatisfied(config: Config, input: Option<Json>)
    requires Decoded(Condition, config)
    ensures Evaluate(config, input) <==> Satisfied(config, input)
  {
    var root := if input.Some? then input.value else Object(map[]);
    var path := config.field[|FIELD_PREFIX|..];
    var found := Lookup(root, Parts(path));
    if found.Some? {
      LookupIffResolves(root, path, found.value);
    }
    forall v
      ensures found == Some(v) <==> Resolves(root, path, v)
    {
      LookupIffResolves(root, path, v);
    }
  }

  /** The loop: it walks down while there is an object that has the next part. */
  method EvaluateWorkflowCondition(config: Config, input: Option<Json>) returns (answer: bool)
    requires Decoded(Condition, config)
    ensures answer <==> Satisfied(config, input)
    ensures answer == Evaluate(config, input)
  {
    EvaluateIffSatisfied(config, input);
    var current := if input.Some? then input.value else Object(map[]);
    var parts := Parts(config.field[|FIELD_PREFIX|..]);
    ghost var looked := Lookup(current, parts);
    var found := true;
    var i := 0;
    while i < |parts| && found
      invariant 0 <= i <= |parts|
      invariant looked == if found then Lookup(current, parts[i..]) else None
      decreases |parts| - i, found
    {
      if current.Object? && parts[i] in current.fields {
        assert parts[i..][0] == parts[i] && parts[i..][1..] == parts[i + 1..];
        current := current.fields[parts[i]];
        i := i + 1;
      } else {
        found := false;
      }
    }
    assert found ==> parts[i..] == [] && looked == Some(current);
    if config.operator == "exists" {
      answer := found;
    } else if config.operator == "equals" {
      answer := found && current == config.operand.value;
    } else {
      answer := !found || current != config.operand.value;
    }
  }
}
