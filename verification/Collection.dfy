/**
  Backbone's collection: the list of models and the index by cid and id beside it,
  both changed in place.
*/
module Collections {
  import opened ActionGraph

  class Model {
    const cid: string
    var id: Option<string>

    constructor (cid: string, id: Option<string>)
      ensures this.cid == cid && this.id == id
    {
      this.cid, this.id := cid, id;
    }
  }

  type Index = map<string, Model>

  // ------------------------------------------------------------------------
  // Lists of models
  // ------------------------------------------------------------------------

  predicate NoRepeats(models: seq<Model>) {
    forall i, j | 0 <= i < j < |models| :: models[i] != models[j]
  }

  /** The models of a list that are not in another. */
  function Without(models: seq<Model>, gone: seq<Model>): (r: seq<Model>)
    ensures forall m :: m in r ==> m in models && m !in gone
    ensures forall m :: m in models && m !in gone ==> m in r
    ensures |r| <= |models|
  {
    if models == [] then []
    else
      assert models == [models[0]] + models[1..];
      (if models[0] in gone then [] else [models[0]]) + Without(models[1..], gone)
  }

  /** Each key stands for one model, and each model has all its keys. */
  ghost predicate Indexed(models: seq<Model>, byId: Index)
    reads models
  {
    && (forall m :: m in models ==> HasKeys(m, byId))
    && (forall k :: k in byId ==> byId[k] in models && KeyOf(k, byId[k]))
  }

  ghost predicate HasKeys(m: Model, byId: Index)
    reads m
  {
    && m.cid in byId && byId[m.cid] == m
    && (m.id.Some? ==> m.id.value in byId && byId[m.id.value] == m)
  }

  predicate KeyOf(k: string, m: Model)
    reads m
  {
    k == m.cid || Some(k) == m.id
  }

  /** Cids are unique, and no id is a cid. */
  ghost predicate Apart(models: seq<Model>)
    reads models
  {
    forall m, n :: m in models && n in models ==> (m.cid == n.cid ==> m == n) && m.id != Some(n.cid)
  }

  /** A list that names each model once. */
  ghost predicate Once(items: seq<Model>)
    reads items
  {
    forall i, j :: 0 <= i < j < |items| ==> items[i] != items[j] && (items[i].id.Some? ==> items[i].id != items[j].id)
  }

  /** `get`, for a model: first by its id, then by its cid. */
  function Get(byId: Index, m: Model): (u: Model?)
    reads m
    ensures m.id.Some? && m.id.value in byId ==> u == byId[m.id.value]
    ensures !(m.id.Some? && m.id.value in byId) && m.cid in byId ==> u == byId[m.cid]
    ensures !(m.id.Some? && m.id.value in byId) && m.cid !in byId ==> u == null
  {
    if m.id.Some? && m.id.value in byId then byId[m.id.value]
    else if m.cid in byId then byId[m.cid]
    else null
  }

  /** The model that an item of a list stands for. */
  function Named(byId: Index, m: Model): Model
    reads m
  {
    var u := Get(byId, m);
    if u == null then m else u
  }

  function AllNamed(byId: Index, items: seq<Model>): (r: seq<Model>)
    reads items
    ensures |r| == |items| && forall i :: 0 <= i < |items| ==> r[i] == Named(byId, items[i])
  {
    if items == [] then [] else
      assert items[0] in items && forall m :: m in items[1..] ==> m in items;
      [Named(byId, items[0])] + AllNamed(byId, items[1..])
  }

  /** The items that stand for no model yet. */
  function Fresh(byId: Index, items: seq<Model>): (r: seq<Model>)
    reads items
    ensures forall m :: m in r ==> m in items && Get(byId, m) == null
    ensures forall m :: m in items && Get(byId, m) == null ==> m in r
  {
    if items == [] then [] else
      assert items == [items[0]] + items[1..];
      (if Get(byId, items[0]) == null then [items[0]] else []) + Fresh(byId, items[1..])
  }

  /** The models found for the items of a list. */
  function Found(byId: Index, items: seq<Model>): (r: seq<Model>)
    reads items
    ensures forall m :: m in r ==> exists t :: t in items && Get(byId, t) == m
    ensures forall t :: t in items && Get(byId, t) != null ==> Get(byId, t) in r
  {
    if items == [] then [] else
      assert items == [items[0]] + items[1..];
      (if Get(byId, items[0]) == null then [] else [Get(byId, items[0])]) + Found(byId, items[1..])
  }

  /** Where `splice` starts: a place below zero counts from the end. */
  function Place(length: nat, at: int): (c: nat)
    ensures c <= length
  {
    if at + length < 0 then 0 else if at < 0 then at + length else if at < length then at else length
  }

  /** `splice(at, 0, m)` */
  function Spliced(models: seq<Model>, at: int, m: Model): (r: seq<Model>)
    ensures |r| == |models| + 1
  {
    models[..Place(|models|, at)] + [m] + models[Place(|models|, at)..]
  }

  /** Inserting models one after the other, each one place further on. */
  function Inserted(models: seq<Model>, at: int, extra: seq<Model>): (r: seq<Model>)
    ensures |r| == |models| + |extra|
    decreases |extra|
  {
    if extra == [] then models else Inserted(Spliced(models, at, extra[0]), at + 1, extra[1..])
  }

  /** From a place that is not below zero the models end side by side, at the end if there is no such place. */
  lemma {:induction false} InsertedTogether(models: seq<Model>, at: nat, extra: seq<Model>)
    ensures Inserted(models, at, extra) == models[..Place(|models|, at)] + extra + models[Place(|models|, at)..]
    decreases |extra|
  {
    var c := Place(|models|, at);
    if extra == [] {
      assert models == models[..c] + [] + models[c..];
    } else {
      var next := Spliced(models, at, extra[0]);
      InsertedTogether(next, at + 1, extra[1..]);
      assert Place(|next|, at + 1) == c + 1;
      assert next[..c + 1] == models[..c] + [extra[0]] && next[c + 1..] == models[c..];
      assert extra == [extra[0]] + extra[1..];
      assert models[..c] + [extra[0]] + extra[1..] == models[..c] + extra;
    }
  }

  /** Models taken by turns from two lists, and then the rest of the second. */
  function ByTurns(a: seq<Model>, b: seq<Model>): seq<Model>
    decreases |a|
  {
    if a == [] then b else if b == [] then a else [a[0], b[0]] + ByTurns(a[1..], b[1..])
  }

  /** From a place below zero they do not: the list grows, so that each one lands two places after the one before. */
  lemma {:induction false} InsertedByTurns(front: seq<Model>, back: seq<Model>, extra: seq<Model>)
    requires |extra| <= |back| && back != []
    ensures Inserted(front + back, -|back|, extra) == front + ByTurns(extra, back)
    decreases |extra|
  {
    if extra != [] {
      var first := [extra[0], back[0]];
      SplicedBefore(front, back, extra[0]);
      if |back| == 1 {
        assert extra[1..] == [] && first + [] == first && (front + first) + [] == front + first;
      } else {
        hide ByTurns;
        InsertedByTurns(front + first, back[1..], extra[1..]);
        TurnsOn(extra, back);
        JoinTwice(front, first, ByTurns(extra[1..], back[1..]));
      }
    }
  }

  lemma {:induction false} TurnsOn(a: seq<Model>, b: seq<Model>)
    requires a != [] && b != []
    ensures ByTurns(a, b) == [a[0], b[0]] + ByTurns(a[1..], b[1..])
  {
  }

  lemma {:induction false} JoinTwice(a: seq<Model>, b: seq<Model>, c: seq<Model>)
    ensures (a + b) + c == a + (b + c)
  {
  }

  lemma {:induction false} SplicedBefore(front: seq<Model>, back: seq<Model>, m: Model)
    requires back != []
    ensures Spliced(front + back, -|back|, m) == (front + [m, back[0]]) + back[1..]
  {
    var all := front + back;
    assert Place(|all|, -|back|) == |front|;
    assert all[..|front|] == front && all[|front|..] == back;
    assert back == [back[0]] + back[1..];
  }

  /** The new models stand together and in order, and the others as they did. */
  ghost predicate SideBySide(models: seq<Model>, extra: seq<Model>, r: seq<Model>) {
    exists c :: 0 <= c <= |models| && r == models[..c] + extra + models[c..]
  }

  ghost predicate Before(models: seq<Model>, a: Model, b: Model) {
    exists i, j :: 0 <= i < j < |models| && models[i] == a && models[j] == b
  }

  /** Two new models stand the other way round, or an old one stands between them. */
  ghost predicate Torn(r: seq<Model>, models: seq<Model>, a: Model, b: Model) {
    Before(r, b, a) || exists m :: m in models && Before(r, a, m) && Before(r, m, b)
  }

  lemma {:induction false} BeforeStays(models: seq<Model>, at: int, extra: seq<Model>, a: Model, b: Model)
    requires Before(models, a, b)
    ensures Before(Inserted(models, at, extra), a, b)
    decreases |extra|
  {
    if extra != [] {
      var c := Place(|models|, at);
      var next := Spliced(models, at, extra[0]);
      var i, j :| 0 <= i < j < |models| && models[i] == a && models[j] == b;
      assert next[if i < c then i else i + 1] == a && next[if j < c then j else j + 1] == b;
      BeforeStays(next, at + 1, extra[1..], a, b);
    }
  }

  lemma {:induction false} TornStays(r: seq<Model>, at: int, extra: seq<Model>, models: seq<Model>, a: Model, b: Model)
    requires Torn(r, models, a, b)
    ensures Torn(Inserted(r, at, extra), models, a, b)
  {
    hide Before, Inserted;
    if Before(r, b, a) {
      BeforeStays(r, at, extra, b, a);
    } else {
      var m :| m in models && Before(r, a, m) && Before(r, m, b);
      BeforeStays(r, at, extra, a, m);
      BeforeStays(r, at, extra, m, b);
    }
  }

  lemma {:induction false} BeforeAt(r: seq<Model>, i: nat, j: nat)
    requires NoRepeats(r) && i < |r| && j < |r|
    ensures Before(r, r[i], r[j]) <==> i < j
  {
  }

  lemma {:induction false} NotTorn(models: seq<Model>, extra: seq<Model>, c: nat, i: nat)
    requires NoRepeats(models + extra) && c <= |models| && i + 1 < |extra|
    ensures !Torn(models[..c] + extra + models[c..], models, extra[i], extra[i + 1])
  {
    hide Before;
    var r, all := models[..c] + extra + models[c..], models + extra;
    assert NoRepeats(r) by {
      assert forall k :: 0 <= k < |r| ==>
        r[k] == all[if k < c then k else if k < c + |extra| then |models| + (k - c) else k - |extra|];
    }
    assert r[c + i] == extra[i] && r[c + i + 1] == extra[i + 1];
    BeforeAt(r, c + i + 1, c + i);
    forall m | m in models ensures !(Before(r, extra[i], m) && Before(r, m, extra[i + 1])) {
      var k :| 0 <= k < |models| && models[k] == m;
      var n := if k < c then k else k + |extra|;
      assert r[n] == m;
      BeforeAt(r, c + i, n);
      BeforeAt(r, n, c + i + 1);
    }
  }

  lemma {:induction false} InsertedTwo(models: seq<Model>, at: int, extra: seq<Model>)
    requires |extra| >= 2
    ensures Inserted(models, at, extra)
         == Inserted(Spliced(Spliced(models, at, extra[0]), at + 1, extra[1]), at + 2, extra[2..])
  {
    assert extra[1..][0] == extra[1] && extra[1..][1..] == extra[2..];
  }

  /** From a place below zero the first two models are torn, unless it is the one just before the first. */
  lemma {:induction false} TwoTorn(models: seq<Model>, at: int, a: Model, b: Model)
    requires at < 0 && at != -(|models| + 1)
    ensures Torn(Spliced(Spliced(models, at, a), at + 1, b), models, a, b)
  {
    var n, once := |models|, Spliced(models, at, a);
    var c := Place(n, at);
    var r := Spliced(once, at + 1, b);
    assert once[c] == a;
    if at == -1 || n + at < 0 {
      assert Place(n + 1, at + 1) == 0;
      assert r[0] == b && r[c + 1] == a;
      assert Before(r, b, a);
    } else {
      assert c == n + at && Place(n + 1, at + 1) == c + 2;
      assert once[c + 1] == models[c];
      assert r[c] == a && r[c + 1] == models[c] && r[c + 2] == b;
      assert Before(r, a, models[c]) && Before(r, models[c], b);
    }
  }

  /** There the first two stand together before all others, but a third does not join them. */
  lemma {:induction false} ThirdTorn(models: seq<Model>, extra: seq<Model>)
    requires |extra| >= 2 && models != []
    ensures Spliced(Spliced(models, -(|models| + 1), extra[0]), -|models|, extra[1]) == [extra[0], extra[1]] + models
    ensures |extra| > 2 ==> Torn(Spliced([extra[0], extra[1]] + models, -(|models| - 1), extra[2]), models, extra[1], extra[2])
  {
    var n, two := |models|, [extra[0], extra[1]] + models;
    assert Spliced(models, -(n + 1), extra[0]) == [extra[0]] + models;
    if |extra| > 2 {
      var r := Spliced(two, -(n - 1), extra[2]);
      if n == 1 {
        assert r[0] == extra[2] && r[2] == extra[1];
        assert Before(r, extra[2], extra[1]);
      } else {
        assert r[1] == extra[1] && r[2] == models[0] && r[3] == extra[2];
        assert Before(r, extra[1], models[0]) && Before(r, models[0], extra[2]);
      }
    }
  }

  /** The places from which different models end up side by side. */
  predicate KeepsTogether(length: nat, at: int, count: nat) {
    at >= 0 || count <= 1 || (count == 2 && length >= 1 && at == -(length + 1))
  }

  /** New models end up side by side exactly from a place that is not below zero, or if they are one, or two put before all. */
  lemma {:induction false} InsertedSideBySide(models: seq<Model>, at: int, extra: seq<Model>)
    requires NoRepeats(models + extra)
    ensures SideBySide(models, extra, Inserted(models, at, extra)) <==> KeepsTogether(|models|, at, |extra|)
  {
    hide NoRepeats, Inserted, Spliced, Torn;
    if at >= 0 {
      InsertedTogether(models, at, extra);
    } else if |extra| <= 1 {
      InsertedFew(models, at, extra);
    } else {
      InsertedTwo(models, at, extra);
      var i := 0;
      if at != -(|models| + 1) {
        TwoTorn(models, at, extra[0], extra[1]);
        TornStays(Spliced(Spliced(models, at, extra[0]), at + 1, extra[1]), at + 2, extra[2..], models, extra[0], extra[1]);
      } else if models == [] {
        EmptyTorn(at, extra[0], extra[1]);
        TornStays(Spliced(Spliced(models, at, extra[0]), at + 1, extra[1]), at + 2, extra[2..], models, extra[0], extra[1]);
      } else {
        ThirdTorn(models, extra);
        if |extra| == 2 {
          InsertedFew([extra[0], extra[1]] + models, at + 2, extra[2..]);
          assert [extra[0], extra[1]] + models == models[..0] + extra + models[0..];
        } else {
          i := 1;
          InsertedOne([extra[0], extra[1]] + models, at + 2, extra[2..]);
          TornStays(Spliced([extra[0], extra[1]] + models, at + 2, extra[2]), at + 3, extra[2..][1..], models, extra[1], extra[2]);
        }
      }
      if !KeepsTogether(|models|, at, |extra|) {
        forall c: nat | c <= |models| ensures Inserted(models, at, extra) != models[..c] + extra + models[c..] {
          NotTorn(models, extra, c, i);
        }
      }
    }
  }

  lemma {:induction false} InsertedOne(models: seq<Model>, at: int, extra: seq<Model>)
    requires extra != []
    ensures Inserted(models, at, extra) == Inserted(Spliced(models, at, extra[0]), at + 1, extra[1..])
  {
  }

  lemma {:induction false} InsertedFew(models: seq<Model>, at: int, extra: seq<Model>)
    requires |extra| <= 1
    ensures SideBySide(models, extra, Inserted(models, at, extra))
    ensures extra == [] ==> Inserted(models, at, extra) == models
  {
    var c := Place(|models|, at);
    if extra == [] {
      assert models == models[..c] + extra + models[c..];
    } else {
      assert extra == [extra[0]] && extra[1..] == [];
      assert Inserted(models, at, extra) == models[..c] + extra + models[c..];
    }
  }

  lemma {:induction false} OneBefore(a: Model, b: Model)
    ensures Before([a, b], a, b)
  {
    assert [a, b][0] == a && [a, b][1] == b;
  }

  lemma {:induction false} EmptyTorn(at: int, a: Model, b: Model)
    requires at < 0
    ensures Torn(Spliced(Spliced([], at, a), at + 1, b), [], a, b)
  {
    var r := Spliced(Spliced([], at, a), at + 1, b);
    assert Spliced([], at, a) == [a];
    hide Before;
    assert r == [b, a];
    OneBefore(b, a);
  }

  // ------------------------------------------------------------------------
  // The index
  // ------------------------------------------------------------------------

  /** A model of the list is found as itself. */
  lemma {:induction false} GetMember(models: seq<Model>, byId: Index, m: Model)
    requires Indexed(models, byId) && m in models
    ensures Get(byId, m) == m
  {
    assert HasKeys(m, byId);
  }

  /** What is found for a model has its id, or is the model itself. */
  lemma {:induction false} GetFinds(models: seq<Model>, byId: Index, m: Model)
    requires Indexed(models, byId) && Apart(models + [m]) && Get(byId, m) != null
    ensures Get(byId, m) in models && (Get(byId, m) == m || Get(byId, m).id == m.id)
    ensures Get(byId, m).id == m.id
  {
    var u := Get(byId, m);
    var k := if m.id.Some? && m.id.value in byId then m.id.value else m.cid;
    assert byId[k] in models && KeyOf(k, byId[k]);
    assert m in models + [m] && u in models + [m];
  }

  /** What is not found has no key in the index. */
  lemma {:induction false} GetMisses(models: seq<Model>, byId: Index, m: Model)
    requires Indexed(models, byId) && Get(byId, m) == null
    ensures m !in models && m.cid !in byId && (m.id.Some? ==> m.id.value !in byId)
  {
    assert forall n :: n in models ==> HasKeys(n, byId);
  }

  /** The index with one more model. */
  function WithModel(byId: Index, m: Model): Index
    reads m
  {
    var withCid := byId[m.cid := m];
    if m.id.Some? then withCid[m.id.value := m] else withCid
  }

  function WithoutModel(byId: Index, m: Model): Index
    reads m
  {
    byId - {m.cid} - (if m.id.Some? then {m.id.value} else {})
  }

  lemma {:induction false} IndexedWith(models: seq<Model>, byId: Index, m: Model)
    requires Indexed(models, byId) && Get(byId, m) == null
    ensures Indexed(models + [m], WithModel(byId, m))
  {
    GetMisses(models, byId, m);
    forall n | n in models + [m] ensures HasKeys(n, WithModel(byId, m)) {
      assert n in models ==> HasKeys(n, byId);
    }
    forall k | k in WithModel(byId, m) ensures WithModel(byId, m)[k] in models + [m] && KeyOf(k, WithModel(byId, m)[k]) {
      assert k in byId ==> KeyOf(k, byId[k]);
    }
  }

  lemma {:induction false} IndexedWithout(models: seq<Model>, byId: Index, m: Model, rest: seq<Model>)
    requires Indexed(models, byId) && m in models
    requires forall n :: n in rest ==> n in models && n != m
    requires forall n :: n in models && n != m ==> n in rest
    ensures Indexed(rest, WithoutModel(byId, m))
  {
    var now := WithoutModel(byId, m);
    assert HasKeys(m, byId);
    forall n | n in rest ensures HasKeys(n, now) {
      assert HasKeys(n, byId);
    }
    forall k | k in now ensures now[k] in rest && KeyOf(k, now[k]) {
      assert byId[k] in models && KeyOf(k, byId[k]);
    }
  }

  // ------------------------------------------------------------------------
  // Removing
  // ------------------------------------------------------------------------

  /** The list and the index. */
  datatype State = State(models: seq<Model>, byId: Index)

  /** The list without the first place where a model stands. */
  function Cut(models: seq<Model>, o: Model): (r: seq<Model>)
    ensures |r| <= |models| && (o in models ==> |r| == |models| - 1)
  {
    if models == [] then []
    else if models[0] == o then models[1..]
    else
      assert models == [models[0]] + models[1..];
      [models[0]] + Cut(models[1..], o)
  }

  /** One turn of the loop of `remove`. */
  function RemoveOne(st: State, t: Model): State
    reads t, st.byId.Values
  {
    var o := Get(st.byId, t);
    if o == null then st
    else
      assert o in st.byId.Values by { GetIsValue(st.byId, t); }
      State(Cut(st.models, o), WithoutModel(st.byId, o))
  }

  lemma {:induction false} GetIsValue(byId: Index, t: Model)
    requires Get(byId, t) != null
    ensures Get(byId, t) in byId.Values
  {
    var k := if t.id.Some? && t.id.value in byId then t.id.value else t.cid;
    assert k in byId.Keys;
  }

  lemma {:induction false} FewerValues(byId: Index, m: Model)
    ensures WithoutModel(byId, m).Values <= byId.Values
  {
    var now := WithoutModel(byId, m);
    forall v | v in now.Values ensures v in byId.Values {
      var k :| k in now && now[k] == v;
      assert k in byId.Keys;
    }
  }

  /** The loop of `remove`. */
  function RemoveEach(st: State, list: seq<Model>): State
    reads list, st.byId.Values
    decreases |list|
  {
    if list == [] then st
    else
      assert list[0] in list && forall t :: t in list[1..] ==> t in list;
      assert RemoveOne(st, list[0]).byId.Values <= st.byId.Values by { RemoveOneValues(st, list[0]); }
      RemoveEach(RemoveOne(st, list[0]), list[1..])
  }

  lemma {:induction false} RemoveOneValues(st: State, t: Model)
    ensures RemoveOne(st, t).byId.Values <= st.byId.Values
  {
    if Get(st.byId, t) != null {
      FewerValues(st.byId, Get(st.byId, t));
    }
  }

  lemma {:induction false} WithoutNone(models: seq<Model>, gone: seq<Model>)
    requires forall m :: m in models ==> m !in gone
    ensures Without(models, gone) == models
    decreases |models|
  {
    if models != [] {
      assert models == [models[0]] + models[1..];
      WithoutNone(models[1..], gone);
    }
  }

  lemma {:induction false} CutIsWithout(models: seq<Model>, o: Model)
    requires NoRepeats(models)
    ensures Cut(models, o) == Without(models, [o])
    decreases |models|
  {
    if models != [] {
      assert models[0] !in models[1..];
      if models[0] == o {
        WithoutNone(models[1..], [o]);
      } else {
        CutIsWithout(models[1..], o);
      }
    }
  }

  lemma {:induction false} WithoutTwice(models: seq<Model>, gone: seq<Model>, more: seq<Model>)
    ensures Without(Without(models, gone), more) == Without(models, gone + more)
    decreases |models|
  {
    if models != [] {
      var rest := Without(models[1..], gone);
      WithoutTwice(models[1..], gone, more);
      if models[0] in gone {
        assert Without(models, gone) == rest;
      } else {
        assert Without(models, gone) == [models[0]] + rest && ([models[0]] + rest)[1..] == rest;
      }
    }
  }

  lemma {:induction false} CutPending(models: seq<Model>, pending: seq<Model>, o: Model)
    requires NoRepeats(models + pending) && o in models
    ensures NoRepeats(models) && NoRepeats(Cut(models, o) + pending)
    ensures forall n :: n in Cut(models, o) + pending ==> n in models + pending && n != o
    ensures forall n :: n in models + pending && n != o ==> n in Cut(models, o) + pending
    decreases |models|
  {
    var all := models + pending;
    assert forall i :: 0 <= i < |models| ==> all[i] == models[i];
    assert all[1..] == models[1..] + pending && all[0] !in all[1..];
    if models[0] != o {
      CutPending(models[1..], pending, o);
      assert Cut(models, o) + pending == [models[0]] + (Cut(models[1..], o) + pending);
    } else {
      assert Cut(models, o) + pending == all[1..];
    }
    assert all == [all[0]] + all[1..];
  }

  /** What holds when the index already has some models that the list has not. */
  ghost predicate Agrees(st: State, pending: seq<Model>)
    reads st.models, pending
  {
    NoRepeats(st.models + pending) && Indexed(st.models + pending, st.byId)
  }

  lemma {:induction false} RemoveOneAgrees(st: State, t: Model, pending: seq<Model>)
    requires Agrees(st, pending) && Apart(st.models + pending + [t]) && Get(st.byId, t) !in pending
    ensures Agrees(RemoveOne(st, t), pending)
    ensures RemoveOne(st, t).models == Without(st.models, Found(st.byId, [t]))
    ensures Get(st.byId, t) != null ==> Get(st.byId, t) in st.models
  {
    var o := Get(st.byId, t);
    assert [t][1..] == [] && Found(st.byId, [t]) == if o == null then [] else [o];
    if o == null {
      WithoutNone(st.models, []);
    } else {
      GetFinds(st.models + pending, st.byId, t);
      CutPending(st.models, pending, o);
      CutIsWithout(st.models, o);
      IndexedWithout(st.models + pending, st.byId, o, Cut(st.models, o) + pending);
    }
  }

  /** What is found for another item after one was removed. */
  lemma {:induction false} GetAfterRemoving(st: State, t: Model, u: Model, pending: seq<Model>)
    requires Agrees(st, pending) && Apart(st.models + pending + [t]) && Apart(st.models + pending + [u])
    ensures Get(RemoveOne(st, t).byId, u) ==
      if Get(st.byId, u) == Get(st.byId, t) then null else Get(st.byId, u)
  {
    hide NoRepeats;
    var all := st.models + pending;
    var o := Get(st.byId, t);
    if o != null {
      GetFinds(all, st.byId, t);
      assert HasKeys(o, st.byId);
      if Get(st.byId, u) == null {
        GetMisses(all, st.byId, u);
      } else if Get(st.byId, u) == o {
        hide Apart;
        GetRemoved(all, st.byId, o, u);
      } else {
        hide Apart;
        GetKept(all, st.byId, o, u);
      }
    }
  }

  lemma {:induction false} GetRemoved(all: seq<Model>, byId: Index, o: Model, u: Model)
    requires Indexed(all, byId) && Apart(all + [u]) && o in all && Get(byId, u) == o
    ensures Get(WithoutModel(byId, o), u) == null
  {
    assert HasKeys(o, byId);
    assert u in all + [u] && forall m :: m in all ==> m in all + [u];
    assert u.cid in byId ==> byId[u.cid] in all && KeyOf(u.cid, byId[u.cid]);
    assert u in all ==> HasKeys(u, byId);
  }

  lemma {:induction false} GetKept(all: seq<Model>, byId: Index, o: Model, u: Model)
    requires Indexed(all, byId) && o in all && Get(byId, u) != null && Get(byId, u) != o
    ensures Get(WithoutModel(byId, o), u) == Get(byId, u)
  {
    assert HasKeys(o, byId);
  }

  lemma {:induction false} WithoutSame(models: seq<Model>, a: seq<Model>, b: seq<Model>)
    requires forall m :: m in models ==> (m in a <==> m in b)
    ensures Without(models, a) == Without(models, b)
    decreases |models|
  {
    if models != [] {
      assert models == [models[0]] + models[1..];
      WithoutSame(models[1..], a, b);
    }
  }

  lemma {:induction false} ApartFewer(all: seq<Model>, some: seq<Model>)
    requires Apart(all) && forall m :: m in some ==> m in all
    ensures Apart(some)
  {
  }

  /** What is found for the rest of a list after its first item was removed. */
  lemma {:induction false} FoundAfterFirst(st: State, list: seq<Model>, pending: seq<Model>)
    requires Agrees(st, pending) && Apart(st.models + pending + list) && list != []
    ensures var next := RemoveOne(st, list[0]);
            && (forall u :: u in list[1..] ==>
                  Get(next.byId, u) == if Get(st.byId, u) == Get(st.byId, list[0]) then null else Get(st.byId, u))
            && (forall m :: m in st.models ==>
                  (m in Found(st.byId, [list[0]]) + Found(next.byId, list[1..]) <==> m in Found(st.byId, list)))
  {
    hide Agrees, Apart;
    var t, rest := list[0], list[1..];
    assert list == [t] + rest;
    var next := RemoveOne(st, t);
    forall u | u in rest
      ensures Get(next.byId, u) == if Get(st.byId, u) == Get(st.byId, t) then null else Get(st.byId, u)
    {
      assert u in list;
      ApartFewer(st.models + pending + list, st.models + pending + [t]);
      ApartFewer(st.models + pending + list, st.models + pending + [u]);
      GetAfterRemoving(st, t, u, pending);
    }
  }

  /** `remove` takes out the models that the items stand for, and leaves the others as they stood. */
  lemma {:induction false} RemoveEachIs(st: State, list: seq<Model>, pending: seq<Model>)
    requires Agrees(st, pending) && Apart(st.models + pending + list)
    requires forall t :: t in list ==> Get(st.byId, t) !in pending
    ensures Agrees(RemoveEach(st, list), pending)
    ensures RemoveEach(st, list).models == Without(st.models, Found(st.byId, list))
    decreases |list|
  {
    hide Agrees, Apart;
    if list == [] {
      WithoutNone(st.models, []);
    } else {
      var t, rest := list[0], list[1..];
      assert list == [t] + rest;
      var all := st.models + pending + list;
      ApartFewer(all, st.models + pending + [t]);
      RemoveOneAgrees(st, t, pending);
      FoundAfterFirst(st, list, pending);
      var next := RemoveOne(st, t);
      ApartFewer(all, next.models + pending + rest);
      RemoveEachIs(next, rest, pending);
      WithoutTwice(st.models, Found(st.byId, [t]), Found(next.byId, rest));
      WithoutSame(st.models, Found(st.byId, [t]) + Found(next.byId, rest), Found(st.byId, list));
    }
  }

  // ------------------------------------------------------------------------
  // Setting
  // ------------------------------------------------------------------------

  function IdOf(m: Model): set<string>
    reads m
  {
    if m.id.Some? then {m.id.value} else {}
  }

  /** What holds before a call of `set`, of the list, its index and the items. */
  ghost predicate Ready(models: seq<Model>, byId: Index, items: seq<Model>)
    reads models, items
  {
    NoRepeats(models) && Indexed(models, byId) && Once(items) && Apart(models + items)
  }

  /** The variables of the first loop of `set`: the index, the new models, the ordered list, and the marked keys. */
  datatype Progress = Progress(byId: Index, added: seq<Model>, ordered: seq<Model>, marks: set<string>)

  /** One turn of that loop. */
  function ListStep(x: Progress, h: Model, add: bool, remove: bool): Progress
    reads h, x.byId.Values
  {
    var u := Get(x.byId, h);
    if u != null then
      assert u in x.byId.Values by { GetIsValue(x.byId, h); }
      var marks := if remove then x.marks + {u.cid} else x.marks;
      x.(ordered := if add && remove && IdOf(u) !! marks then x.ordered + [u] else x.ordered,
         marks := marks + IdOf(u))
    else if add then
      Progress(WithModel(x.byId, h), x.added + [h],
               if remove && IdOf(h) !! x.marks then x.ordered + [h] else x.ordered, x.marks + IdOf(h))
    else
      x.(marks := x.marks + IdOf(h))
  }

  lemma {:induction false} ListStepIs(x: Progress, h: Model, add: bool, remove: bool)
    ensures ListStep(x, h, add, remove) ==
      var u := Get(x.byId, h);
      var o := if u == null then h else u;
      var marks := if u != null && remove then x.marks + {o.cid} else x.marks;
      Progress(
        if u == null && add then WithModel(x.byId, h) else x.byId,
        if u == null && add then x.added + [h] else x.added,
        if add && remove && IdOf(o) !! marks then x.ordered + [o] else x.ordered,
        marks + IdOf(o))
  {
  }

  /** The first loop of `set` after `s` items. */
  ghost predicate Listing(models: seq<Model>, was: Index, items: seq<Model>, s: nat, x: Progress, add: bool, remove: bool)
    reads models, items, x.added
  {
    && s <= |items|
    && Agrees(State(models, x.byId), x.added)
    && x.added == (if add then Fresh(was, items[..s]) else [])
    && (add && remove ==> x.ordered == AllNamed(was, items[..s]))
    && Marked(models, AllNamed(was, items[..s]), x.marks, remove)
    && (forall i :: s <= i < |items| ==> Unmet(was, x, items[i]))
  }

  /** The marked cids of the list are those of the models that were named. */
  ghost predicate Marked(models: seq<Model>, named: seq<Model>, marks: set<string>, remove: bool) {
    forall m :: m in models ==> (m.cid in marks <==> remove && m in named)
  }

  /** An item still to come stands for what it stood for, and its id is not marked. */
  ghost predicate Unmet(was: Index, x: Progress, t: Model)
    reads t
  {
    Get(x.byId, t) == Get(was, t) && IdOf(t) !! x.marks
  }

  lemma {:induction false} ListingStarts(models: seq<Model>, byId: Index, items: seq<Model>, add: bool, remove: bool)
    requires Ready(models, byId, items)
    ensures Listing(models, byId, items, 0, Progress(byId, [], [], {}), add, remove)
  {
    assert models + [] == models && items[..0] == [];
  }

  /** An item that stands for a model of the list. */
  lemma {:induction false} ListKnown(models: seq<Model>, was: Index, items: seq<Model>, s: nat, x: Progress, add: bool, remove: bool)
    requires Ready(models, was, items) && Listing(models, was, items, s, x, add, remove) && s < |items|
    requires Get(was, items[s]) != null
    ensures Listing(models, was, items, s + 1, ListStep(x, items[s], add, remove), add, remove)
  {
    hide Agrees, NoRepeats, Fresh, AllNamed;
    var h, next := items[s], ListStep(x, items[s], add, remove);
    assert Unmet(was, x, h);
    var u := Get(was, h);
    PrefixMore(was, items, s);
    ApartFewer(models + items, models + [h]);
    GetFinds(models, was, h);
    assert u in models + items;
    assert IdOf(u) == IdOf(h);
    forall i | s + 1 <= i < |items| ensures Unmet(was, next, items[i]) {
      assert Unmet(was, x, items[i]) && items[i] in models + items && items[s] != items[i];
    }
    forall m | m in models ensures m.cid in next.marks <==> remove && m in AllNamed(was, items[..s + 1]) {
      assert m in models + items && h in models + items;
    }
  }

  /** An item that stands for no model yet. */
  lemma {:induction false} ListNew(models: seq<Model>, was: Index, items: seq<Model>, s: nat, x: Progress, add: bool, remove: bool)
    requires Ready(models, was, items) && Listing(models, was, items, s, x, add, remove) && s < |items|
    requires Get(was, items[s]) == null
    ensures Listing(models, was, items, s + 1, ListStep(x, items[s], add, remove), add, remove)
  {
    hide NoRepeats, Fresh, AllNamed;
    var h, next := items[s], ListStep(x, items[s], add, remove);
    assert Unmet(was, x, h);
    PrefixMore(was, items, s);
    GetMisses(models, was, h);
    if add {
      GetMisses(models + x.added, x.byId, h);
      AgreesWith(State(models, x.byId), x.added, h);
    }
    forall i | s + 1 <= i < |items| ensures Unmet(was, next, items[i]) {
      assert Unmet(was, x, items[i]) && items[i] in models + items && h in models + items && h != items[i];
      ApartFewer(models + items, [h, items[i]]);
      GetAfterAdding(x.byId, h, items[i]);
    }
    forall m | m in models ensures m.cid in next.marks <==> remove && m in AllNamed(was, items[..s + 1]) {
      assert m in models + items && h in models + items;
    }
  }

  lemma {:induction false} AgreesWith(st: State, pending: seq<Model>, h: Model)
    requires Agrees(st, pending) && Get(st.byId, h) == null && h !in st.models + pending
    ensures Agrees(State(st.models, WithModel(st.byId, h)), pending + [h])
  {
    IndexedWith(st.models + pending, st.byId, h);
    assert st.models + (pending + [h]) == (st.models + pending) + [h];
  }

  lemma {:induction false} PrefixMore(byId: Index, items: seq<Model>, s: nat)
    requires s < |items|
    ensures Fresh(byId, items[..s + 1]) == Fresh(byId, items[..s]) + (if Get(byId, items[s]) == null then [items[s]] else [])
    ensures AllNamed(byId, items[..s + 1]) == AllNamed(byId, items[..s]) + [Named(byId, items[s])]
  {
    hide Named, Fresh, AllNamed, Get;
    assert items[..s + 1] == items[..s] + [items[s]];
    FreshJoin(byId, items[..s], [items[s]]);
    FreshOne(byId, items[s]);
    AllNamedMore(byId, items[..s], items[s]);
  }

  lemma {:induction false} AllNamedMore(byId: Index, items: seq<Model>, m: Model)
    ensures AllNamed(byId, items + [m]) == AllNamed(byId, items) + [Named(byId, m)]
    decreases |items|
  {
    if items == [] {
      assert [m][1..] == [] && [] + [m] == [m];
    } else {
      assert (items + [m])[1..] == items[1..] + [m];
      AllNamedMore(byId, items[1..], m);
    }
  }

  lemma {:induction false} FreshOne(byId: Index, m: Model)
    ensures Fresh(byId, [m]) == if Get(byId, m) == null then [m] else []
  {
    assert [m][1..] == [];
  }

  lemma {:induction false} FreshJoin(byId: Index, a: seq<Model>, b: seq<Model>)
    ensures Fresh(byId, a + b) == Fresh(byId, a) + Fresh(byId, b)
    decreases |a|
  {
    if a == [] {
      assert a + b == b;
    } else {
      assert (a + b)[1..] == a[1..] + b;
      FreshJoin(byId, a[1..], b);
    }
  }

  /** The index with a new model finds for other items what it found before. */
  lemma {:induction false} GetAfterAdding(byId: Index, h: Model, t: Model)
    requires Apart([h, t]) && h != t && (t.id.Some? ==> t.id != h.id)
    ensures Get(WithModel(byId, h), t) == Get(byId, t)
  {
    assert h in [h, t] && t in [h, t];
  }

  // ------------------------------------------------------------------------
  // What set leaves
  // ------------------------------------------------------------------------

  /** The models of a list that are also in another. */
  function Within(models: seq<Model>, named: seq<Model>): seq<Model> {
    Without(models, Without(models, named))
  }

  /** The models after `set`: those named in the listed order, or those kept with the new ones put in. */
  function SetModels(models: seq<Model>, byId: Index, items: seq<Model>, add: bool, remove: bool, at: Option<int>): seq<Model>
    reads items
  {
    if add && remove && at.None? then AllNamed(byId, items)
    else
      var kept := if remove then Within(models, AllNamed(byId, items)) else models;
      Inserted(kept, if at.Some? then at.value else |kept|, if add then Fresh(byId, items) else [])
  }

  lemma {:induction false} NamedOnce(models: seq<Model>, byId: Index, items: seq<Model>)
    requires Ready(models, byId, items)
    ensures NoRepeats(AllNamed(byId, items))
  {
    hide NoRepeats, AllNamed;
    forall i, j | 0 <= i < j < |items| ensures AllNamed(byId, items)[i] != AllNamed(byId, items)[j] {
      NamedApart(models, byId, items, i, j);
    }
    NoRepeatsIf(AllNamed(byId, items));
  }

  lemma {:induction false} NoRepeatsIf(models: seq<Model>)
    requires forall i, j :: 0 <= i < j < |models| ==> models[i] != models[j]
    ensures NoRepeats(models)
  {
  }

  lemma {:induction false} NamedApart(models: seq<Model>, byId: Index, items: seq<Model>, i: nat, j: nat)
    requires Ready(models, byId, items) && i < j < |items|
    ensures Named(byId, items[i]) != Named(byId, items[j])
  {
    var a, b := items[i], items[j];
    ApartFewer(models + items, models + [a]);
    ApartFewer(models + items, models + [b]);
    if Get(byId, a) == null {
      GetMisses(models, byId, a);
    } else {
      GetFinds(models, byId, a);
    }
    if Get(byId, b) == null {
      GetMisses(models, byId, b);
    } else {
      GetFinds(models, byId, b);
    }
  }

  lemma {:induction false} FirstMember(b: seq<Model>)
    ensures b != [] ==> exists i :: 0 <= i < |b| && b[i] in b
  {
    if b != [] {
      assert b[0] in b;
    }
  }

  lemma {:induction false} SameSize(a: seq<Model>, b: seq<Model>)
    requires NoRepeats(a) && NoRepeats(b)
    requires (forall m :: m in a ==> m in b) && forall m :: m in b ==> m in a
    ensures |a| == |b|
    decreases |a|
  {
    if a == [] {
      FirstMember(b);
    } else {
      CutPending(a, [], a[0]);
      assert a + [] == a && b + [] == b && a[1..] + [] == a[1..] && Cut(b, a[0]) + [] == Cut(b, a[0]);
      CutPending(b, [], a[0]);
      assert Cut(a, a[0]) == a[1..] && a[0] in b;
      SameSize(a[1..], Cut(b, a[0]));
    }
  }

  lemma {:induction false} IndexedSame(a: seq<Model>, b: seq<Model>, byId: Index)
    requires Indexed(a, byId) && (forall m :: m in a ==> m in b) && forall m :: m in b ==> m in a
    ensures Indexed(b, byId)
  {
  }

  /** A model is named if it is kept or new. */
  lemma {:induction false} NamedMembers(models: seq<Model>, byId: Index, items: seq<Model>)
    requires Ready(models, byId, items)
    ensures forall m :: m in AllNamed(byId, items) ==> m in Within(models, AllNamed(byId, items)) + Fresh(byId, items)
    ensures forall m :: m in Within(models, AllNamed(byId, items)) + Fresh(byId, items) ==> m in AllNamed(byId, items)
  {
    hide NoRepeats, Fresh, AllNamed, Within, Without;
    var named := AllNamed(byId, items);
    WithinIs(models, named);
    forall m | m in named ensures m in Within(models, named) + Fresh(byId, items) {
      var i :| 0 <= i < |named| && named[i] == m;
      if Get(byId, items[i]) != null {
        ApartFewer(models + items, models + [items[i]]);
        GetFinds(models, byId, items[i]);
      }
    }
    forall m | m in Fresh(byId, items) ensures m in named {
      var i :| 0 <= i < |items| && items[i] == m;
      assert named[i] == m;
    }
  }

  lemma {:induction false} WithinIs(models: seq<Model>, named: seq<Model>)
    ensures forall m :: m in Within(models, named) ==> m in models && m in named
    ensures forall m :: m in models && m in named ==> m in Within(models, named)
  {
  }

  /** Removing the unmarked models keeps those that were named. */
  lemma {:induction false} DropUnmarked(models: seq<Model>, byId: Index, named: seq<Model>, pending: seq<Model>)
    requires Agrees(State(models, byId), pending) && Apart(models + pending)
    ensures var next := RemoveEach(State(models, byId), Without(models, named));
            next.models == Within(models, named) && Agrees(next, pending)
  {
    var gone := Without(models, named);
    forall t | t in gone ensures Get(byId, t) == t && t !in pending {
      GetMember(models + pending, byId, t);
      PendingApart(models, pending, t);
    }
    ApartFewer(models + pending, models + pending + gone);
    RemoveEachIs(State(models, byId), gone, pending);
    WithoutSame(models, Found(byId, gone), gone);
  }

  lemma {:induction false} PendingApart(models: seq<Model>, pending: seq<Model>, t: Model)
    requires NoRepeats(models + pending) && t in models
    ensures t !in pending
  {
    var i :| 0 <= i < |models| && models[i] == t;
    forall j | 0 <= j < |pending| ensures pending[j] != t {
      assert (models + pending)[i] == t && (models + pending)[|models| + j] == pending[j];
    }
  }

  /** Where each model goes that is put in, and where it comes from. */
  lemma {:induction false} SplicedMoves(models: seq<Model>, at: int, extra: seq<Model>)
    requires extra != []
    ensures var c, n := Place(|models|, at), |models|;
            var r, all := Spliced(models, at, extra[0]) + extra[1..], models + extra;
            && |r| == |all|
            && (forall i :: 0 <= i < |r| ==> r[i] == all[if i < c || i > n then i else if i == c then n else i - 1])
            && forall i :: 0 <= i < |all| ==> all[i] == r[if i < c || i > n then i else if i == n then c else i + 1]
  {
  }

  lemma {:induction false} SplicedSame(models: seq<Model>, at: int, extra: seq<Model>)
    requires NoRepeats(models + extra) && extra != []
    ensures var r := Spliced(models, at, extra[0]) + extra[1..];
            NoRepeats(r) && (forall m :: m in models + extra ==> m in r) && forall m :: m in r ==> m in models + extra
  {
    hide Spliced, Place;
    SplicedMoves(models, at, extra);
  }

  lemma {:induction false} SplicedAgrees(models: seq<Model>, byId: Index, at: int, extra: seq<Model>)
    requires Agrees(State(models, byId), extra) && extra != []
    ensures Agrees(State(Spliced(models, at, extra[0]), byId), extra[1..])
  {
    hide NoRepeats, Indexed, Spliced;
    var all, r := models + extra, Spliced(models, at, extra[0]) + extra[1..];
    SplicedSame(models, at, extra);
    assert forall m :: m in r ==> m in all;
    IndexedSame(all, r, byId);
  }

  lemma {:induction false} InsertedAgrees(models: seq<Model>, byId: Index, at: int, extra: seq<Model>)
    requires Agrees(State(models, byId), extra)
    ensures NoRepeats(Inserted(models, at, extra)) && Indexed(Inserted(models, at, extra), byId)
    decreases |extra|
  {
    if extra == [] {
      assert models + extra == models;
    } else {
      hide Agrees, NoRepeats, Indexed, Spliced;
      SplicedAgrees(models, byId, at, extra);
      InsertedAgrees(Spliced(models, at, extra[0]), byId, at + 1, extra[1..]);
    }
  }

  /** The items can be removed one after the other, none of them standing for a model that is only in the index. */
  ghost predicate Removable(st: State, list: seq<Model>, pending: seq<Model>)
    reads st.models, list, pending
  {
    && Agrees(st, pending) && Apart(st.models + pending + list)
    && forall t :: t in list ==> Get(st.byId, t) !in pending
  }

  lemma {:induction false} RemoveAdvance(st: State, list: seq<Model>, pending: seq<Model>)
    requires Removable(st, list, pending) && list != []
    ensures Removable(RemoveOne(st, list[0]), list[1..], pending)
    ensures var o := Get(st.byId, list[0]); o != null ==> o in st.models && |RemoveOne(st, list[0]).models| == |st.models| - 1
    ensures RemoveEach(st, list) == RemoveEach(RemoveOne(st, list[0]), list[1..])
  {
    assert list == [list[0]] + list[1..];
    ApartFewer(st.models + pending + list, st.models + pending + [list[0]]);
    RemoveOneAgrees(st, list[0], pending);
    FoundAfterFirst(st, list, pending);
    var next := RemoveOne(st, list[0]);
    ApartFewer(st.models + pending + list, next.models + pending + list[1..]);
  }

  lemma {:induction false} RemoveStarts(st: State, list: seq<Model>)
    requires NoRepeats(st.models) && Indexed(st.models, st.byId) && Apart(st.models + list)
    ensures Removable(st, list, [])
    ensures var next := RemoveEach(st, list);
            && next.models == Without(st.models, Found(st.byId, list))
            && NoRepeats(next.models) && Indexed(next.models, next.byId)
  {
    assert st.models + [] == st.models && st.models + [] + list == st.models + list;
    RemoveEachIs(st, list, []);
    assert RemoveEach(st, list).models + [] == RemoveEach(st, list).models;
  }

  lemma {:induction false} RemoveOneIs(st: State, t: Model)
    ensures RemoveOne(st, t) ==
      var o := Get(st.byId, t);
      if o == null then st else State(Cut(st.models, o), WithoutModel(st.byId, o))
  {
  }

  lemma {:induction false} RemoveNothing(st: State)
    ensures RemoveEach(st, []) == st
  {
  }

  lemma {:induction false} CutAt(models: seq<Model>, a: nat)
    requires a < |models| && models[a] !in models[..a]
    ensures Cut(models, models[a]) == models[..a] + models[a + 1..]
    decreases a
  {
    if a > 0 {
      assert models[0] == models[..a][0] && models[1..][..a - 1] == models[..a][1..];
      CutAt(models[1..], a - 1);
      assert models[..a] + models[a + 1..] == [models[0]] + (models[1..][..a - 1] + models[1..][a..]);
    }
  }

  // ------------------------------------------------------------------------
  // The collection
  // ------------------------------------------------------------------------

  class Collection {
    var models: seq<Model>
    var length: nat
    var byId: Index

    ghost predicate Valid()
      reads this, models
    {
      length == |models| && NoRepeats(models) && Indexed(models, byId)
    }

    constructor ()
      ensures Valid() && models == []
    {
      models, length, byId := [], 0, map[];
    }

    /** `_addReference`, as far as the index goes. */
    method AddReference(m: Model)
      modifies this`byId
      ensures byId == old(WithModel(byId, m))
    {
      byId := byId[m.cid := m];
      if m.id.Some? {
        byId := byId[m.id.value := m];
      }
    }

    /** The body of the loop of `remove`, for a model of the list. */
    method RemoveModel(o: Model)
      requires length == |models| && o in models
      modifies this
      ensures length == |models| && State(models, byId) == old(State(Cut(models, o), WithoutModel(byId, o)))
    {
      if o.id.Some? {
        byId := byId - {o.id.value};
      }
      byId := byId - {o.cid};
      assert byId == WithoutModel(old(byId), o);
      var a := 0;
      while models[a] != o
        invariant 0 <= a < |models| && o !in models[..a] && models == old(models)
        decreases |models| - a
      {
        assert models == models[..a + 1] + models[a + 1..] && models[..a + 1] == models[..a] + [models[a]];
        a := a + 1;
      }
      CutAt(models, a);
      models := models[..a] + models[a + 1..];
      length := length - 1;
    }

    /** `remove`, also for the call from within `set`. */
    method RemoveListed(list: seq<Model>, ghost pending: seq<Model>)
      requires length == |models| && Removable(State(models, byId), list, pending)
      modifies this
      ensures length == |models| && State(models, byId) == old(RemoveEach(State(models, byId), list))
    {
      hide *;
      ghost var final := RemoveEach(State(models, byId), list);
      assert list[0..] == list;
      for s := 0 to |list|
        invariant length == |models| && Removable(State(models, byId), list[s..], pending)
        invariant RemoveEach(State(models, byId), list[s..]) == final
      {
        ghost var st := State(models, byId);
        RemoveAdvance(st, list[s..], pending);
        RemoveOneIs(st, list[s]);
        ghost var next := RemoveOne(st, list[s]);
        assert list[s..][0] == list[s] && list[s..][1..] == list[s + 1..];
        assert Removable(next, list[s + 1..], pending);
        assert RemoveEach(next, list[s + 1..]) == final;
        var o := Get(byId, list[s]);
        if o != null {
          RemoveModel(o);
        }
        assert State(models, byId) == next;
        assert Removable(next, list[s + 1..], pending);
        assert RemoveEach(next, list[s + 1..]) == final;
      }
      RemoveNothing(State(models, byId));
      assert list[|list|..] == [];
    }

    /** `remove` */
    method Remove(list: seq<Model>)
      requires Valid() && Apart(models + list)
      modifies this
      ensures Valid() && models == old(Without(models, Found(byId, list)))
    {
      hide *;
      ValidIs(this);
      ghost var st := State(models, byId);
      RemoveStarts(st, list);
      ghost var next := RemoveEach(st, list);
      assert NoRepeats(next.models) && Indexed(next.models, next.byId);
      RemoveListed(list, []);
      assert State(models, byId) == next;
      ValidIs(this);
    }

    /** The first loop of `set`. */
    method ListItems(items: seq<Model>, add: bool, remove: bool)
      returns (added: seq<Model>, ordered: seq<Model>, marks: set<string>)
      requires Ready(models, byId, items)
      modifies this`byId
      ensures Listing(models, old(byId), items, |items|, Progress(byId, added, ordered, marks), add, remove)
    {
      hide *;
      ghost var was := byId;
      added, ordered, marks := [], [], {};
      ListingStarts(models, byId, items, add, remove);
      for s := 0 to |items|
        invariant Listing(models, was, items, s, Progress(byId, added, ordered, marks), add, remove)
      {
        ghost var x := Progress(byId, added, ordered, marks);
        var h := items[s];
        var u := Get(byId, h);
        ghost var next := ListStep(x, h, add, remove);
        ListNext(models, was, items, s, x, add, remove);
        ListStepIs(x, h, add, remove);
        assert Listing(models, was, items, s + 1, next, add, remove);
        var o := h;
        if u != null {
          if remove {
            marks := marks + {u.cid};
          }
          o := u;
        } else if add {
          added := added + [h];
          AddReference(h);
        }
        if add && remove && IdOf(o) !! marks {
          ordered := ordered + [o];
        }
        marks := marks + IdOf(o);
        assert Progress(byId, added, ordered, marks) == next;
      }
    }

    /**
      `set` without a comparator, for items that are models: with `add` and `remove` the list
      becomes exactly the listed models in the listed order.
    */
    method Set(items: seq<Model>, add: bool, remove: bool, at: Option<int>)
      requires Valid() && Once(items) && Apart(models + items)
      modifies this
      ensures Valid() && models == old(SetModels(models, byId, items, add, remove, at))
    {
      hide *;
      ValidIs(this);
      ghost var was, wasById := models, byId;
      ReadyIs(models, byId, items);
      var added, ordered, marks := ListItems(items, add, remove);
      ghost var x := Progress(byId, added, ordered, marks);
      ghost var st := State(models, byId);
      ghost var last := SetModels(was, wasById, items, add, remove, at);
      if remove {
        var gone := Unmarked(models, marks);
        DropReady(was, wasById, items, x, gone, add);
        st := RemoveEach(st, gone);
        SetEnds(was, wasById, items, x, st, add, remove, at);
        assert Indexed(last, st.byId);
        RemoveListed(gone, added);
      } else {
        SetEnds(was, wasById, items, x, st, add, remove, at);
      }
      assert State(models, byId) == st;
      assert Indexed(last, st.byId);
      if |added| > 0 || (add && remove && |ordered| > 0) {
        length := length + |added|;
        if at.Some? {
          ghost var unplaced := models;
          for s := 0 to |added|
            modifies this`models
            invariant Inserted(models, at.value + s, added[s..]) == Inserted(unplaced, at.value, added)
          {
            InsertedStep(models, at.value + s, added, s);
            models := Spliced(models, at.value + s, added[s]);
          }
          InsertedDone(models, at.value + |added|, added);
        } else if add && remove {
          models := ordered;
        } else {
          models := models + added;
        }
      }
      LastModelsIs(st.models, x, add && remove, at);
      assert models == last;
      ValidIs(this);
    }

    /** `add` */
    method Add(items: seq<Model>, at: Option<int>)
      requires Valid() && Once(items) && Apart(models + items)
      modifies this
      ensures Valid() && models == old(SetModels(models, byId, items, true, false, at))
    {
      Set(items, true, false, at);
    }

    /** `reset` */
    method Reset(items: seq<Model>)
      requires Valid() && Once(items) && Apart(items)
      modifies this
      ensures Valid() && models == items
    {
      hide *;
      models, length, byId := [], 0, map[];
      ResetReady(byId, items);
      ValidIs(this);
      assert models + items == items;
      Add(items, None);
    }

    /** A model of the list takes another id that is not in use, and `_onModelEvent` hears of it. */
    method ChangeId(m: Model, id: Option<string>)
      requires Valid() && Apart(models) && m in models && (id.Some? ==> id.value !in byId)
      modifies this`byId, m
      ensures Valid() && m.id == id && models == old(models)
    {
      hide *;
      ValidIs(this);
      ghost var was := byId;
      ghost var previous := m.id;
      KeysBefore(models, byId, m);
      if m.id.Some? {
        byId := byId - {m.id.value};
      }
      m.id := id;
      if id.Some? {
        byId := byId[id.value := m];
      }
      assert forall n :: n in models && n != m ==> HasKeys(n, was);
      assert forall k :: k in was && was[k] != m ==> KeyOf(k, was[k]);
      IdChanged(models, was, byId, m, previous);
      ValidIs(this);
    }
  }

  lemma {:induction false} KeysBefore(models: seq<Model>, byId: Index, m: Model)
    requires Indexed(models, byId) && Apart(models) && m in models
    ensures forall n :: n in models && n != m ==> HasKeys(n, byId)
    ensures m.cid in byId && byId[m.cid] == m && m.id != Some(m.cid)
    ensures m.id.Some? ==> m.id.value in byId && byId[m.id.value] == m
    ensures forall k :: k in byId ==> byId[k] in models
    ensures forall k :: k in byId && byId[k] != m ==> KeyOf(k, byId[k])
    ensures forall k :: k in byId && byId[k] == m ==> k == m.cid || Some(k) == m.id
  {
    assert HasKeys(m, byId);
    assert forall k :: k in byId ==> KeyOf(k, byId[k]);
  }

  lemma {:induction false} IdChanged(models: seq<Model>, was: Index, now: Index, m: Model, previous: Option<string>)
    requires m in models && forall n :: n in models && n != m ==> HasKeys(n, was)
    requires m.cid in was && was[m.cid] == m && previous != Some(m.cid)
    requires previous.Some? ==> previous.value in was && was[previous.value] == m
    requires forall k :: k in was ==> was[k] in models
    requires forall k :: k in was && was[k] != m ==> KeyOf(k, was[k])
    requires forall k :: k in was && was[k] == m ==> k == m.cid || Some(k) == previous
    requires m.id.Some? ==> m.id.value !in was
    requires var cut := was - (if previous.Some? then {previous.value} else {});
             now == if m.id.Some? then cut[m.id.value := m] else cut
    ensures Indexed(models, now)
  {
    forall n | n in models ensures HasKeys(n, now) {
      assert n != m ==> HasKeys(n, was);
    }
    forall k | k in now ensures now[k] in models && KeyOf(k, now[k]) {
      assert k in was && was[k] != m ==> KeyOf(k, was[k]);
    }
  }

  lemma {:induction false} ValidIs(c: Collection)
    ensures c.Valid() <==> c.length == |c.models| && NoRepeats(c.models) && Indexed(c.models, c.byId)
  {
  }

  lemma {:induction false} ReadyIs(models: seq<Model>, byId: Index, items: seq<Model>)
    requires NoRepeats(models) && Indexed(models, byId) && Once(items) && Apart(models + items)
    ensures Ready(models, byId, items)
  {
  }

  lemma {:induction false} NothingIs(byId: Index)
    requires byId == map[]
    ensures NoRepeats([]) && Indexed([], byId)
  {
  }

  lemma {:induction false} ResetReady(byId: Index, items: seq<Model>)
    requires byId == map[]
    ensures NoRepeats([]) && Indexed([], byId) && SetModels([], byId, items, true, false, None) == items
  {
    hide NoRepeats, Indexed, Fresh, AllNamed;
    NothingIs(byId);
    FreshAll(byId, items);
    InsertedPlain([], items);
    assert [] + items == items;
  }

  /** The models whose cid is not marked. */
  function Unmarked(models: seq<Model>, marks: set<string>): seq<Model> {
    if models == [] then []
    else (if models[0].cid in marks then [] else [models[0]]) + Unmarked(models[1..], marks)
  }

  lemma {:induction false} UnmarkedIs(models: seq<Model>, marks: set<string>, named: seq<Model>)
    requires Marked(models, named, marks, true)
    ensures Unmarked(models, marks) == Without(models, named)
    decreases |models|
  {
    if models != [] {
      assert models == [models[0]] + models[1..];
      UnmarkedIs(models[1..], marks, named);
    }
  }

  lemma {:induction false} ListNext(models: seq<Model>, was: Index, items: seq<Model>, s: nat, x: Progress, add: bool, remove: bool)
    requires Ready(models, was, items) && Listing(models, was, items, s, x, add, remove) && s < |items|
    ensures Listing(models, was, items, s + 1, ListStep(x, items[s], add, remove), add, remove)
  {
    if Get(was, items[s]) == null {
      ListNew(models, was, items, s, x, add, remove);
    } else {
      ListKnown(models, was, items, s, x, add, remove);
    }
  }

  lemma {:induction false} ListedMembers(models: seq<Model>, was: Index, items: seq<Model>, x: Progress, add: bool, remove: bool)
    requires Ready(models, was, items) && Listing(models, was, items, |items|, x, add, remove)
    ensures Apart(models + x.added)
    ensures x.added == (if add then Fresh(was, items) else []) && (add && remove ==> x.ordered == AllNamed(was, items))
    ensures Marked(models, AllNamed(was, items), x.marks, remove) && Agrees(State(models, x.byId), x.added)
  {
    assert items[..|items|] == items;
    ApartFewer(models + items, models + x.added);
  }

  lemma {:induction false} DropReady(models: seq<Model>, was: Index, items: seq<Model>, x: Progress, gone: seq<Model>, add: bool)
    requires Ready(models, was, items) && Listing(models, was, items, |items|, x, add, true)
    requires gone == Unmarked(models, x.marks)
    ensures Removable(State(models, x.byId), gone, x.added)
    ensures var next := RemoveEach(State(models, x.byId), gone);
            next.models == Within(models, AllNamed(was, items)) && Agrees(next, x.added)
  {
    hide Listing, Agrees;
    ListedMembers(models, was, items, x, add, true);
    UnmarkedIs(models, x.marks, AllNamed(was, items));
    DropUnmarked(models, x.byId, AllNamed(was, items), x.added);
    GoneRemovable(models, x.byId, gone, x.added);
  }

  lemma {:induction false} GoneRemovable(models: seq<Model>, byId: Index, gone: seq<Model>, pending: seq<Model>)
    requires Agrees(State(models, byId), pending) && Apart(models + pending) && forall t :: t in gone ==> t in models
    ensures Removable(State(models, byId), gone, pending)
  {
    forall t | t in gone ensures Get(byId, t) !in pending {
      GetMember(models + pending, byId, t);
      PendingApart(models, pending, t);
    }
    ApartFewer(models + pending, models + pending + gone);
  }

  /** The last part of `set`: what the list becomes. */
  function LastModels(kept: seq<Model>, x: Progress, full: bool, at: Option<int>): seq<Model> {
    if !(|x.added| > 0 || (full && |x.ordered| > 0)) then kept
    else if at.Some? then Inserted(kept, at.value, x.added)
    else if full then x.ordered
    else kept + x.added
  }

  /** The listed models, when `set` leaves just those. */
  lemma {:induction false} SetEndsOrdered(models: seq<Model>, was: Index, items: seq<Model>, x: Progress, st: State)
    requires Ready(models, was, items) && Listing(models, was, items, |items|, x, true, true)
    requires st.models == Within(models, AllNamed(was, items)) && Agrees(st, x.added)
    ensures LastModels(st.models, x, true, None) == AllNamed(was, items)
    ensures NoRepeats(AllNamed(was, items)) && Indexed(AllNamed(was, items), st.byId)
    ensures |AllNamed(was, items)| == |st.models| + |x.added|
  {
    hide Listing, Indexed, NoRepeats, AllNamed, Fresh, Within;
    var named := AllNamed(was, items);
    ListedMembers(models, was, items, x, true, true);
    NamedOnce(models, was, items);
    NamedMembers(models, was, items);
    IndexedSame(st.models + x.added, named, st.byId);
    SameSize(named, st.models + x.added);
  }

  lemma {:induction false} SetEnds(models: seq<Model>, was: Index, items: seq<Model>, x: Progress, st: State,
                                   add: bool, remove: bool, at: Option<int>)
    requires Ready(models, was, items) && Listing(models, was, items, |items|, x, add, remove)
    requires remove ==> st.models == Within(models, AllNamed(was, items)) && Agrees(st, x.added)
    requires !remove ==> st == State(models, x.byId)
    ensures var last := SetModels(models, was, items, add, remove, at);
            && LastModels(st.models, x, add && remove, at) == last
            && NoRepeats(last) && Indexed(last, st.byId) && |last| == |st.models| + |x.added|
  {
    hide Listing, Indexed, NoRepeats, AllNamed, Fresh, Within;
    if add && remove && at.None? {
      SetEndsOrdered(models, was, items, x, st);
    } else {
      ListedMembers(models, was, items, x, add, remove);
      var c := if at.Some? then at.value else |st.models|;
      AgreesIs(st, x.added);
      InsertedAgrees(st.models, st.byId, c, x.added);
      InsertedPlain(st.models, x.added);
      InsertedNone(st.models, c);
    }
  }

  lemma {:induction false} LastModelsIs(kept: seq<Model>, x: Progress, full: bool, at: Option<int>)
    ensures LastModels(kept, x, full, at) ==
      if !(|x.added| > 0 || (full && |x.ordered| > 0)) then kept
      else if at.Some? then Inserted(kept, at.value, x.added)
      else if full then x.ordered
      else kept + x.added
  {
  }

  lemma {:induction false} AgreesIs(st: State, pending: seq<Model>)
    ensures Agrees(st, pending) <==> NoRepeats(st.models + pending) && Indexed(st.models + pending, st.byId)
    ensures State(st.models, st.byId) == st
  {
  }

  lemma {:induction false} InsertedPlain(models: seq<Model>, extra: seq<Model>)
    ensures Inserted(models, |models|, extra) == models + extra
  {
    InsertedTogether(models, |models|, extra);
  }

  lemma {:induction false} InsertedStep(models: seq<Model>, at: int, extra: seq<Model>, i: nat)
    requires i < |extra|
    ensures extra[0..] == extra
    ensures Inserted(models, at, extra[i..]) == Inserted(Spliced(models, at, extra[i]), at + 1, extra[i + 1..])
  {
    assert extra[i..][1..] == extra[i + 1..];
  }

  lemma {:induction false} InsertedDone(models: seq<Model>, at: int, extra: seq<Model>)
    ensures Inserted(models, at, extra[|extra|..]) == models
  {
  }

  lemma {:induction false} InsertedNone(models: seq<Model>, at: int)
    ensures Inserted(models, at, []) == models
  {
  }

  lemma {:induction false} FreshAll(byId: Index, items: seq<Model>)
    requires byId == map[]
    ensures Fresh(byId, items) == items
    decreases |items|
  {
    if items != [] {
      FreshAll(byId, items[1..]);
    }
  }
}
