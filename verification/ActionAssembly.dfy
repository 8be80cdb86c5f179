/**
  How actions are put together: `addDependencies`, `addAction`, `actionSequence` and `actionGroup`
  on the objects, and the objects of a whole plan, which form the plan's graph.
*/
module ActionAssembly {
  import opened ActionGraph
  import opened ActionInvariant
  import opened ActionTree
  import opened ActionHeap

  // ------------------------------------------------------------------------
  // Lists of objects
  // ------------------------------------------------------------------------

  /** The actions of a list that are not null. */
  function Items(list: seq<Action?>): seq<Action> {
    if list == [] then [] else (if list[0] == null then [] else [list[0]]) + Items(list[1..])
  }

  lemma {:induction false} ItemsJoin(a: seq<Action?>, b: seq<Action?>)
    ensures Items(a + b) == Items(a) + Items(b)
    decreases |a|
  {
    if a == [] {
      assert a + b == b;
    } else {
      assert (a + b)[1..] == a[1..] + b;
      ItemsJoin(a[1..], b);
    }
  }

  /** The first i actions of a list, but for null ones. */
  function ItemsTo(list: seq<Action?>, i: nat): seq<Action>
    requires i <= |list|
  {
    Items(list[..i])
  }

  lemma {:induction false} NextItem(list: seq<Action?>, i: nat)
    requires i < |list|
    ensures list[i] == null ==> ItemsTo(list, i + 1) == ItemsTo(list, i)
    ensures list[i] != null ==> ItemsTo(list, i + 1) == ItemsTo(list, i) + [list[i]]
    ensures list[i] != null ==>
              list[i] in Items(list) && |ItemsTo(list, i)| < |Items(list)| && Items(list)[|ItemsTo(list, i)|] == list[i]
  {
    var one := [list[i]];
    assert list[..i + 1] == list[..i] + one && one[1..] == [];
    ItemsJoin(list[..i], one);
    assert list == list[..i + 1] + list[i + 1..];
    ItemsJoin(list[..i + 1], list[i + 1..]);
  }

  lemma {:induction false} AllItems(list: seq<Action?>)
    ensures ItemsTo(list, 0) == [] && ItemsTo(list, |list|) == Items(list)
  {
    assert list[..0] == [] && list[..|list|] == list;
  }

  function Copies(a: Action, n: nat): seq<Action> {
    if n == 0 then [] else Copies(a, n - 1) + [a]
  }

  ghost predicate Distinct(objects: seq<Action>) {
    forall i, j :: 0 <= i < j < |objects| ==> objects[i] != objects[j]
  }

  function Previous(all: seq<Action>, k: nat): seq<Action>
    requires k < |all|
  {
    if k > 0 then [all[k - 1]] else []
  }

  function Following(all: seq<Action>, k: nat): seq<Action>
    requires k < |all|
  {
    if k + 1 < |all| then [all[k + 1]] else []
  }

  /** An action as it is created: pending, and without dependencies. */
  ghost predicate Unlinked(a: Action)
    reads a`status, a`depends, a`requiredBy, a`computed
  {
    a.status == Pending && a.depends == [] && a.requiredBy == [] && a.computed == []
  }

  // ------------------------------------------------------------------------
  // The combinators
  // ------------------------------------------------------------------------

  /** One turn of `addDependencies`. */
  method AddDependency(action: Action, dependency: Action)
    modifies action`depends, dependency`requiredBy
    ensures action.depends == old(action.depends) + [dependency]
    ensures dependency.requiredBy == old(dependency.requiredBy) + [action]
  {
    action.depends := action.depends + [dependency];
    dependency.requiredBy := dependency.requiredBy + [action];
  }

  ghost function Depends(all: seq<Action>): seq<seq<Action>>
    reads all`depends
  {
    if all == [] then [] else [all[0].depends] + Depends(all[1..])
  }

  ghost function RequiredBy(all: seq<Action>): seq<seq<Action>>
    reads all`requiredBy
  {
    if all == [] then [] else [all[0].requiredBy] + RequiredBy(all[1..])
  }

  lemma {:induction false} DependsAre(all: seq<Action>)
    ensures |Depends(all)| == |all| && forall k :: 0 <= k < |all| ==> Depends(all)[k] == all[k].depends
    decreases |all|
  {
    if all != [] {
      DependsAre(all[1..]);
    }
  }

  lemma {:induction false} RequiredByAre(all: seq<Action>)
    ensures |RequiredBy(all)| == |all| && forall k :: 0 <= k < |all| ==> RequiredBy(all)[k] == all[k].requiredBy
    decreases |all|
  {
    if all != [] {
      RequiredByAre(all[1..]);
    }
  }

  /** For each of these dependencies there is one more entry in what it is required by. */
  ghost predicate Counted(action: Action, all: seq<Action>, done: seq<Action>, requiredBy: seq<seq<Action>>)
    reads all`requiredBy
  {
    && |requiredBy| == |all|
    && forall k :: 0 <= k < |all| ==> all[k].requiredBy == requiredBy[k] + Copies(action, multiset(done)[all[k]])
  }

  lemma {:induction false} NoneCounted(action: Action, all: seq<Action>)
    ensures Counted(action, all, [], RequiredBy(all))
  {
    RequiredByAre(all);
  }

  /** One turn of `addDependencies`. */
  method CountOne(action: Action, dependency: Action, ghost all: seq<Action>, ghost done: seq<Action>, ghost requiredBy: seq<seq<Action>>)
    requires dependency in all && Counted(action, all, done, requiredBy)
    modifies action`depends, all`requiredBy
    ensures Counted(action, all, done + [dependency], requiredBy)
    ensures action.depends == old(action.depends) + [dependency]
  {
    AddDependency(action, dependency);
    forall k | 0 <= k < |all|
      ensures multiset(done + [dependency])[all[k]] == multiset(done)[all[k]] + if all[k] == dependency then 1 else 0
    {
    }
  }

  /** `addDependencies` */
  method AddDependencies(action: Action, dependencies: seq<Action?>)
    modifies action`depends, Items(dependencies)`requiredBy
    ensures action.depends == old(action.depends) + Items(dependencies)
    ensures Counted(action, Items(dependencies), Items(dependencies), old(RequiredBy(Items(dependencies))))
  {
    hide *;
    ghost var all := Items(dependencies);
    ghost var requiredBy := RequiredBy(all);
    NoneCounted(action, all);
    AllItems(dependencies);
    for i := 0 to |dependencies|
      invariant action.depends == old(action.depends) + ItemsTo(dependencies, i)
      invariant Counted(action, all, ItemsTo(dependencies, i), requiredBy)
    {
      var d := dependencies[i];
      NextItem(dependencies, i);
      if d != null {
        CountOne(action, d, all, ItemsTo(dependencies, i), requiredBy);
      }
    }
  }

  /** `addAction` */
  method AddAction(group: Action, action: Action?)
    modifies group`actions
    ensures group.actions == old(group.actions) + if action == null then [] else [action]
  {
    if action != null {
      group.actions := group.actions + [action];
    }
  }

  /** What each action depended on and was required by, with links from each of the first n to the one before it. */
  ghost predicate Linked(all: seq<Action>, n: nat, depends: seq<seq<Action>>, requiredBy: seq<seq<Action>>,
                         depends': seq<seq<Action>>, requiredBy': seq<seq<Action>>) {
    && n <= |all| == |depends| == |requiredBy| == |depends'| == |requiredBy'|
    && (forall k :: 0 <= k < |all| ==> depends'[k] == depends[k] + if k < n then Previous(all, k) else [])
    && (forall k :: 0 <= k < |all| ==> requiredBy'[k] == requiredBy[k] + if k + 1 < n then Following(all, k) else [])
  }

  /** The first n actions have been linked, each to the one before it, on top of what there was. */
  ghost predicate LinkedUpTo(all: seq<Action>, n: nat, depends: seq<seq<Action>>, requiredBy: seq<seq<Action>>)
    reads all`depends, all`requiredBy
  {
    Linked(all, n, depends, requiredBy, Depends(all), RequiredBy(all))
  }

  lemma {:induction false} LinkedNext(all: seq<Action>, n: nat, depends: seq<seq<Action>>, requiredBy: seq<seq<Action>>,
                                      d: seq<seq<Action>>, r: seq<seq<Action>>)
    requires n < |all| && Linked(all, n, depends, requiredBy, d, r)
    ensures |d| == |r| == |all|
    ensures n == 0 ==> Linked(all, n + 1, depends, requiredBy, d, r)
    ensures n > 0 ==> Linked(all, n + 1, depends, requiredBy, d[n := d[n] + [all[n - 1]]], r[n - 1 := r[n - 1] + [all[n]]])
  {
  }

  lemma {:induction false} NoneLinked(all: seq<Action>)
    ensures LinkedUpTo(all, 0, Depends(all), RequiredBy(all))
  {
    DependsAre(all);
    RequiredByAre(all);
  }

  lemma {:induction false} AsCreated(a: Action)
    requires a.status == Pending && a.depends == [] && a.requiredBy == [] && a.computed == []
    ensures Unlinked(a)
  {
  }

  /** One turn of the loop of `actionSequence`. */
  method LinkNext(a: Action, dependency: Action?, ghost all: seq<Action>, ghost n: nat,
                  ghost depends: seq<seq<Action>>, ghost requiredBy: seq<seq<Action>>)
    requires Distinct(all) && n < |all| && a == all[n] && dependency == if n > 0 then all[n - 1] else null
    requires LinkedUpTo(all, n, depends, requiredBy)
    modifies all`depends, all`requiredBy
    ensures LinkedUpTo(all, n + 1, depends, requiredBy)
  {
    hide Linked;
    ghost var d, r := Depends(all), RequiredBy(all);
    DependsAre(all);
    RequiredByAre(all);
    LinkedNext(all, n, depends, requiredBy, d, r);
    if dependency != null {
      AddDependency(a, dependency);
      DependsAre(all);
      RequiredByAre(all);
      assert Depends(all) == d[n := d[n] + [all[n - 1]]];
      assert RequiredBy(all) == r[n - 1 := r[n - 1] + [a]];
    }
  }

  /** `actionSequence`: every action but the first depends on the one before it; null ones are left out. */
  method ActionSequence(list: seq<Action?>) returns (sequence: Action)
    requires Distinct(Items(list))
    modifies Items(list)`depends, Items(list)`requiredBy
    ensures fresh(sequence) && sequence.isGroup && sequence.actions == Items(list) && Unlinked(sequence)
    ensures LinkedUpTo(Items(list), |Items(list)|, old(Depends(Items(list))), old(RequiredBy(Items(list))))
  {
    hide *;
    ghost var all := Items(list);
    ghost var depends, requiredBy := Depends(all), RequiredBy(all);
    NoneLinked(all);
    AllItems(list);
    sequence := new Action(true);
    AsCreated(sequence);
    var dependency: Action? := null;
    ghost var n := 0;
    for i := 0 to |list|
      invariant n == |ItemsTo(list, i)| <= |all| && sequence.actions == ItemsTo(list, i) && Unlinked(sequence)
      invariant dependency == if n > 0 then all[n - 1] else null
      invariant LinkedUpTo(all, n, depends, requiredBy)
    {
      var a := list[i];
      NextItem(list, i);
      if a != null {
        LinkNext(a, dependency, all, n, depends, requiredBy);
        AddAction(sequence, a);
        dependency := a;
        n := n + 1;
      }
    }
  }

  /** `actionGroup` */
  method ActionGroup(list: seq<Action?>) returns (group: Action)
    ensures fresh(group) && group.isGroup && group.actions == Items(list) && Unlinked(group)
  {
    hide Items, ItemsTo;
    group := new Action(true);
    AllItems(list);
    for i := 0 to |list|
      invariant group.actions == ItemsTo(list, i) && Unlinked(group)
    {
      NextItem(list, i);
      AddAction(group, list[i]);
    }
  }
}
