/** The history of one action in the log of a run. */
module ActionHistory {
  import opened ActionGraph
  import opened ActionRuns

  lemma {:induction false} AboutSplit(log: seq<Event>, k: nat, a: Id)
    requires k <= |log|
    ensures About(log, a) == About(log[..k], a) + About(log[k..], a)
    decreases |log|
  {
    if k == |log| {
      assert log[..k] == log && log[k..] == [];
    } else {
      var shorter := log[..|log| - 1];
      AboutSplit(shorter, k, a);
      assert shorter[..k] == log[..k];
      assert log[k..] == shorter[k..] + [log[|log| - 1]];
      AboutAppend(shorter[k..], log[|log| - 1], a);
    }
  }

  lemma {:induction false} AboutHas(log: seq<Event>, e: Event)
    requires e in log
    ensures e in About(log, e.id)
    decreases |log|
  {
    var shorter := log[..|log| - 1];
    if log[|log| - 1] != e {
      assert e in shorter;
      AboutHas(shorter, e);
    }
  }

  lemma {:induction false} AboutFirst(log: seq<Event>)
    requires log != []
    ensures About(log, log[0].id) != [] && About(log, log[0].id)[0] == log[0]
    decreases |log|
  {
    if |log| > 1 {
      AboutFirst(log[..|log| - 1]);
    }
  }

  /** In a history of a start and one end, the end comes once and after the start. */
  lemma {:induction false} EndOnce(log: seq<Event>, j: nat, a: Id)
    requires j < |log| && log[j] == Ended(a, true) && About(log, a) == [Started(a), Ended(a, true)]
    ensures Ended(a, true) !in log[..j]
    ensures Started(a) in log[..j]
  {
    AboutSplit(log, j, a);
    AboutFirst(log[j..]);
    var x, y := About(log[..j], a), About(log[j..], a);
    assert (x + y)[|x|] == Ended(a, true);
    assert |x| == 1 && x[0] == (x + y)[0] == Started(a);
    if Ended(a, true) in log[..j] {
      AboutHas(log[..j], Ended(a, true));
    }
    AboutIn(log[..j], a, Started(a));
  }
}
