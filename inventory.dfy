/**
 * The instances the engine sees and the list work it does on them: the
 * exclusion filter of `_find_target_instances`, the state filters of `run`,
 * and the state an instance reaches once an action on it went through.
 */
module Inventory {

  /**
   * `running` and `stopped` are the states the engine acts on; every other
   * state is neither. By convention those two names are always `Running`
   * and `Stopped`, never `OtherState("running")` or `OtherState("stopped")`.
   */
  datatype InstanceState = Running | Stopped | OtherState(name: string)

  /** An instance as the engine records it (type and tags are carried but never read). */
  datatype Instance = Instance(id: string, state: InstanceState)

  /** The instances of the reservations of one `describe_instances` response, in order. */
  function Flatten(reservations: seq<seq<Instance>>): seq<Instance>
  {
    if reservations == [] then []
    else Flatten(reservations[..|reservations| - 1]) + reservations[|reservations| - 1]
  }

  /**
   * The instances whose id is not in `excluded`, in their original order:
   * an instance is kept exactly when it is present and not excluded.
   */
  function WithoutExcluded(xs: seq<Instance>, excluded: seq<string>): (ys: seq<Instance>)
    ensures |ys| <= |xs|
    ensures forall y :: y in ys <==> y in xs && y.id !in excluded
  {
    if xs == [] then []
    else
      var last := xs[|xs| - 1];
      assert xs == xs[..|xs| - 1] + [last];
      WithoutExcluded(xs[..|xs| - 1], excluded) + (if last.id in excluded then [] else [last])
  }

  /** Extending a prefix by one instance extends its filtered form by that instance, unless excluded. */
  lemma {:induction false} WithoutExcludedStep(xs: seq<Instance>, j: nat, excluded: seq<string>)
    requires j < |xs|
    ensures WithoutExcluded(xs[..j + 1], excluded) ==
      WithoutExcluded(xs[..j], excluded) + (if xs[j].id in excluded then [] else [xs[j]])
  {
    assert xs[..j + 1][..j] == xs[..j];
  }

  /** Filtering a concatenation filters each part. */
  lemma {:induction false} WithoutExcludedAppend(a: seq<Instance>, b: seq<Instance>, excluded: seq<string>)
    ensures WithoutExcluded(a + b, excluded) == WithoutExcluded(a, excluded) + WithoutExcluded(b, excluded)
  {
    if b != [] {
      var last := b[|b| - 1];
      assert (a + b)[..|a + b| - 1] == a + b[..|b| - 1];
      WithoutExcludedAppend(a, b[..|b| - 1], excluded);
    } else {
      assert a + b == a;
    }
  }

  /** With nothing to exclude the filter keeps every instance, in order. */
  lemma {:induction false} NothingExcludedKeepsAll(xs: seq<Instance>)
    ensures WithoutExcluded(xs, []) == xs
  {
    if xs != [] {
      NothingExcludedKeepsAll(xs[..|xs| - 1]);
      assert xs == xs[..|xs| - 1] + [xs[|xs| - 1]];
    }
  }

  /**
   * The list comprehension `[inst['InstanceId'] for inst in instances if
   * inst['State'] == state]`: the ids of the instances in `state`, in order.
   */
  function IdsInState(xs: seq<Instance>, state: InstanceState): (ids: seq<string>)
    ensures |ids| <= |xs|
    ensures forall id :: id in ids <==> exists i :: 0 <= i < |xs| && xs[i].id == id && xs[i].state == state
  {
    if xs == [] then []
    else
      var rest := IdsInState(xs[1..], state);
      forall id | id in rest
        ensures exists i :: 0 <= i < |xs| && xs[i].id == id && xs[i].state == state
      {
        var i :| 0 <= i < |xs[1..]| && xs[1..][i].id == id && xs[1..][i].state == state;
        assert xs[i + 1] == xs[1..][i];
      }
      forall i | 0 < i < |xs| && xs[i].state == state
        ensures xs[i].id in rest
      {
        assert xs[1..][i - 1] == xs[i];
      }
      (if xs[0].state == state then [xs[0].id] else []) + rest
  }

  /**
   * The instances after every instance whose id is in `ids` has reached
   * `state`; the others are unchanged.
   */
  function Transition(xs: seq<Instance>, ids: seq<string>, state: InstanceState): (ys: seq<Instance>)
    ensures |ys| == |xs|
    ensures forall i :: 0 <= i < |xs| ==>
      ys[i] == (if xs[i].id in ids then Instance(xs[i].id, state) else xs[i])
  {
    if xs == [] then []
    else
      [if xs[0].id in ids then Instance(xs[0].id, state) else xs[0]] + Transition(xs[1..], ids, state)
  }

  /**
   * Once every instance in state `wrong` has had its id in `ids` carried to a
   * different state, no instance is left in state `wrong`.
   */
  lemma {:induction false} TransitionConverges(xs: seq<Instance>, ids: seq<string>, wrong: InstanceState, target: InstanceState)
    requires target != wrong
    requires forall id :: id in IdsInState(xs, wrong) ==> id in ids
    ensures IdsInState(Transition(xs, ids, target), wrong) == []
  {
    if xs != [] {
      forall id | id in IdsInState(xs[1..], wrong) ensures id in ids {
        var i :| 0 <= i < |xs[1..]| && xs[1..][i].id == id && xs[1..][i].state == wrong;
        assert xs[i + 1].id == id && xs[i + 1].state == wrong;
      }
      TransitionConverges(xs[1..], ids, wrong, target);
      if xs[0].state == wrong {
        assert xs[0].id in IdsInState(xs, wrong);
      }
    }
  }
}
