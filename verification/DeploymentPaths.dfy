/**
  The tree of deployment objects: relative paths, and how they are resolved again.

  The objects of one or more trees are numbered, each after its parent. An object
  stands for itself: it equals another only if it has the same number.
*/
module DeploymentPaths {
  import opened ActionGraph

  datatype ConstraintValue = Literal(text: string) | Reference(path: string)

  /** A deployment object: `values` and `defaults` are its constraints, `ext` its `pathToExt`. */
  datatype Object = Object(
    name: string,
    parent: Option<Id>,
    children: seq<Id>,
    values: map<string, ConstraintValue>,
    defaults: map<string, string>,
    ext: Option<string>)

  type Forest = seq<Object>

  const UP := "../"

  /** A name that may stand in a path. */
  predicate GoodName(name: string) {
    name != "" && '/' !in name && name != ".."
  }

  predicate ObjectOk(f: Forest, i: Id)
    requires i < |f|
  {
    && (forall c | c in f[i].children :: i < c < |f| && f[c].parent == Some(i))
    && (forall x, y | 0 <= x < y < |f[i].children| :: f[i].children[x] != f[i].children[y])
    && (f[i].parent.Some? ==>
          f[i].parent.value < i && i in f[f[i].parent.value].children && GoodName(f[i].name))
  }

  /** Names differ among the children of one object. */
  predicate NamesDiffer(f: Forest, i: Id)
    requires i < |f|
  {
    forall c, d | c in f[i].children && d in f[i].children && c < |f| && d < |f| && f[c].name == f[d].name :: c == d
  }

  ghost predicate Consistent(f: Forest) {
    forall i :: 0 <= i < |f| ==> ObjectOk(f, i) && NamesDiffer(f, i)
  }

  // ------------------------------------------------------------------------
  // The methods
  // ------------------------------------------------------------------------

  /** `getTop` */
  function Top(f: Forest, n: Id): (t: Id)
    requires Consistent(f) && n < |f|
    ensures t <= n && f[t].parent.None?
    decreases n
  {
    assert ObjectOk(f, n);
    if f[n].parent.None? then n else Top(f, f[n].parent.value)
  }

  /** `stream`: the object and all below it. */
  function Stream(f: Forest, n: Id): seq<Id>
    requires Consistent(f) && n < |f|
    decreases |f| - n, 1, 0
  {
    assert ObjectOk(f, n);
    [n] + StreamAll(f, n, f[n].children)
  }

  function StreamAll(f: Forest, n: Id, cs: seq<Id>): seq<Id>
    requires Consistent(f) && n < |f| && forall c :: c in cs ==> n < c < |f|
    decreases |f| - n, 0, |cs|
  {
    if cs == [] then []
    else
      assert cs[0] in cs && forall c :: c in cs[1..] ==> c in cs;
      Stream(f, cs[0]) + StreamAll(f, n, cs[1..])
  }

  /** `contains` */
  predicate Contains(f: Forest, a: Id, b: Id)
    requires Consistent(f) && a < |f|
  {
    b in Stream(f, a)
  }

  /** The first of some children that contains an object. */
  function FirstContaining(f: Forest, cs: seq<Id>, to: Id): (r: Option<Id>)
    requires Consistent(f) && forall c :: c in cs ==> c < |f|
    ensures r.Some? ==> r.value in cs && Contains(f, r.value, to)
    ensures r.None? ==> forall c :: c in cs ==> !Contains(f, c, to)
  {
    if cs == [] then None
    else
      assert cs[0] in cs && forall c :: c in cs[1..] ==> c in cs;
      if Contains(f, cs[0], to) then Some(cs[0]) else FirstContaining(f, cs[1..], to)
  }

  /** `buildRelativePath`, with what was built so far. */
  function BuildRelativePath(f: Forest, built: string, from: Id, to: Id): Option<string>
    requires Consistent(f) && from < |f| && to < |f|
    decreases if Contains(f, from, to) then 0 else 1, if Contains(f, from, to) then |f| - from else from
  {
    assert ObjectOk(f, from);
    if from == to then
      Some(built)
    else if Contains(f, from, to) then
      if to in f[from].children then
        Some(built + f[to].name + "/")
      else
        var containing := FirstContaining(f, f[from].children, to);
        if containing.Some? then
          BuildRelativePath(f, built + f[containing.value].name + "/", containing.value, to)
        else
          None
    else if f[from].parent.None? then
      None
    else
      BuildRelativePath(f, built + UP, f[from].parent.value, to)
  }

  /** `relativePathTo` */
  function RelativePathTo(f: Forest, from: Id, to: Id): Option<string>
    requires Consistent(f) && from < |f| && to < |f|
  {
    BuildRelativePath(f, "", from, to)
  }

  /** An object, null, or the NullPointerException of going up from a top. */
  datatype Found = There(id: Id) | Null | Crash

  /** The first of some children whose name begins the path. */
  function ChildFor(f: Forest, cs: seq<Id>, path: string): (r: Option<Id>)
    requires forall c :: c in cs ==> c < |f|
    ensures r.Some? ==> r.value in cs && f[r.value].name + "/" <= path
    ensures r.None? ==> forall c :: c in cs ==> !(f[c].name + "/" <= path)
  {
    if cs == [] then None
    else
      assert cs[0] in cs && forall c :: c in cs[1..] ==> c in cs;
      if f[cs[0]].name + "/" <= path then Some(cs[0]) else ChildFor(f, cs[1..], path)
  }

  /** `getByPath` */
  function GetByPath(f: Forest, n: Id, path: string): (r: Found)
    requires Consistent(f) && n < |f|
    ensures r.There? ==> r.id < |f|
    decreases |path|
  {
    assert ObjectOk(f, n);
    if path == "" then
      There(n)
    else if UP <= path then
      if f[n].parent.None? then Crash else GetByPath(f, f[n].parent.value, path[|UP|..])
    else if "/" <= path then
      GetByPath(f, Top(f, n), path[1..])
    else
      var d := ChildFor(f, f[n].children, path);
      if d.Some? then GetByPath(f, d.value, path[|f[d.value].name| + 1..]) else Null
  }

  // ------------------------------------------------------------------------
  // Above and below
  // ------------------------------------------------------------------------

  /** `a` is `b` or an ancestor of it. */
  predicate Above(f: Forest, a: Id, b: Id)
    requires Consistent(f) && b < |f|
    decreases b
  {
    assert ObjectOk(f, b);
    a == b || (f[b].parent.Some? && Above(f, a, f[b].parent.value))
  }

  lemma {:induction false} AboveBounds(f: Forest, a: Id, b: Id)
    requires Consistent(f) && b < |f| && Above(f, a, b)
    ensures a <= b
    decreases b
  {
    assert ObjectOk(f, b);
    if a != b {
      AboveBounds(f, a, f[b].parent.value);
    }
  }

  lemma {:induction false} AboveTransitive(f: Forest, a: Id, b: Id, c: Id)
    requires Consistent(f) && b < |f| && c < |f| && Above(f, a, b) && Above(f, b, c)
    ensures Above(f, a, c)
    decreases c
  {
    assert ObjectOk(f, c);
    if b != c {
      AboveTransitive(f, a, b, f[c].parent.value);
    }
  }

  /** Two objects above a third lie one above the other. */
  lemma {:induction false} AboveChain(f: Forest, a: Id, b: Id, c: Id)
    requires Consistent(f) && c < |f| && Above(f, a, c) && Above(f, b, c)
    ensures a < |f| && b < |f| && (Above(f, a, b) || Above(f, b, a))
    decreases c
  {
    AboveBounds(f, a, c);
    AboveBounds(f, b, c);
    assert ObjectOk(f, c);
    if a != c && b != c {
      AboveChain(f, a, b, f[c].parent.value);
    }
  }

  lemma {:induction false} StreamIsBelow(f: Forest, a: Id, b: Id)
    requires Consistent(f) && a < |f|
    ensures b in Stream(f, a) ==> b < |f| && Above(f, a, b)
    decreases |f| - a, 1, 0
  {
    assert ObjectOk(f, a);
    if b in Stream(f, a) && b != a {
      var c := StreamAllIsBelow(f, a, f[a].children, b);
      AboveTransitive(f, a, c, b);
    }
  }

  lemma {:induction false} StreamAllIsBelow(f: Forest, a: Id, cs: seq<Id>, b: Id) returns (c: Id)
    requires Consistent(f) && a < |f| && (forall c :: c in cs ==> a < c < |f|) && b in StreamAll(f, a, cs)
    ensures c in cs && b < |f| && Above(f, c, b)
    decreases |f| - a, 0, |cs|
  {
    assert cs[0] in cs && forall c :: c in cs[1..] ==> c in cs;
    if b in Stream(f, cs[0]) {
      c := cs[0];
      StreamIsBelow(f, c, b);
    } else {
      c := StreamAllIsBelow(f, a, cs[1..], b);
    }
  }

  lemma {:induction false} BelowIsInStream(f: Forest, a: Id, b: Id)
    requires Consistent(f) && b < |f| && Above(f, a, b)
    ensures a < |f| && b in Stream(f, a)
    decreases |f| - a
  {
    AboveBounds(f, a, b);
    if a != b {
      var c := ChildTowards(f, a, b);
      BelowIsInStream(f, c, b);
      assert ObjectOk(f, a);
      InStreamAll(f, a, f[a].children, c, b);
    }
  }

  lemma {:induction false} InStreamAll(f: Forest, a: Id, cs: seq<Id>, c: Id, b: Id)
    requires Consistent(f) && a < |f| && (forall c :: c in cs ==> a < c < |f|) && c in cs && b in Stream(f, c)
    ensures b in StreamAll(f, a, cs)
    decreases |cs|
  {
    assert cs[0] in cs && forall c :: c in cs[1..] ==> c in cs;
    if cs[0] != c {
      InStreamAll(f, a, cs[1..], c, b);
    }
  }

  /** The child on the way down. */
  lemma {:induction false} ChildTowards(f: Forest, a: Id, b: Id) returns (c: Id)
    requires Consistent(f) && b < |f| && Above(f, a, b) && a != b
    ensures a < c < |f| && c in f[a].children && f[c].parent == Some(a) && Above(f, c, b)
    decreases b
  {
    assert ObjectOk(f, b);
    var p := f[b].parent.value;
    if p == a {
      c := b;
    } else {
      c := ChildTowards(f, a, p);
      assert Above(f, c, b);
    }
  }

  lemma {:induction false} ContainsIsAbove(f: Forest, a: Id, b: Id)
    requires Consistent(f) && a < |f| && b < |f|
    ensures Contains(f, a, b) <==> Above(f, a, b)
  {
    StreamIsBelow(f, a, b);
    if Above(f, a, b) {
      BelowIsInStream(f, a, b);
    }
  }

  /** Only one child lies on the way down. */
  lemma {:induction false} OneChildTowards(f: Forest, a: Id, b: Id, c: Id, d: Id)
    requires Consistent(f) && a < |f| && b < |f| && c in f[a].children && d in f[a].children
    requires Above(f, c, b) && Above(f, d, b)
    ensures c == d
  {
    assert ObjectOk(f, a);
    AboveChain(f, c, d, b);
    if c != d {
      if Above(f, c, d) {
        AboveBounds(f, c, a);
      } else {
        AboveBounds(f, d, a);
      }
    }
  }

  // ------------------------------------------------------------------------
  // What a relative path looks like
  // ------------------------------------------------------------------------

  function Ups(k: nat): string {
    if k == 0 then "" else UP + Ups(k - 1)
  }

  /** The names on the way down from `a` to `b`. */
  function Down(f: Forest, a: Id, b: Id): string
    requires Consistent(f) && b < |f| && Above(f, a, b)
    decreases b
  {
    assert ObjectOk(f, b);
    if a == b then "" else Down(f, a, f[b].parent.value) + f[b].name + "/"
  }

  lemma {:induction false} DownFirst(f: Forest, a: Id, c: Id, b: Id)
    requires Consistent(f) && a < |f| && b < |f| && c in f[a].children && c < |f| && f[c].parent == Some(a) && Above(f, c, b)
    ensures Above(f, a, b) && Down(f, a, b) == f[c].name + "/" + Down(f, c, b)
    decreases b
  {
    assert ObjectOk(f, b) && ObjectOk(f, c);
    assert Above(f, a, c);
    AboveTransitive(f, a, c, b);
    AboveBounds(f, c, b);
    if c == b {
      assert Down(f, a, a) == "";
      assert Down(f, a, b) == "" + f[b].name + "/";
      assert f[c].name + "/" + "" == "" + f[b].name + "/";
    } else {
      var p := f[b].parent.value;
      DownFirst(f, a, c, p);
      assert f[c].name + "/" + Down(f, c, p) + f[b].name + "/" == f[c].name + "/" + (Down(f, c, p) + f[b].name + "/");
    }
  }

  /** The lowest object above two others, and how far up from the first it is. */
  datatype Meeting = Meeting(at: Id, ups: nat)

  function Meet(f: Forest, a: Id, b: Id): (m: Option<Meeting>)
    requires Consistent(f) && a < |f| && b < |f|
    ensures m.Some? ==> m.value.at < |f| && Above(f, m.value.at, a) && Above(f, m.value.at, b)
    decreases a
  {
    assert ObjectOk(f, a);
    if Above(f, a, b) then
      Some(Meeting(a, 0))
    else if f[a].parent.None? then
      None
    else
      var m := Meet(f, f[a].parent.value, b);
      if m.None? then None else Some(Meeting(m.value.at, m.value.ups + 1))
  }

  /** Whatever is above both is above the meeting point. */
  lemma {:induction false} MeetIsLowest(f: Forest, a: Id, b: Id, x: Id)
    requires Consistent(f) && a < |f| && b < |f| && Above(f, x, a) && Above(f, x, b)
    ensures Meet(f, a, b).Some? && Above(f, x, Meet(f, a, b).value.at)
    decreases a
  {
    assert ObjectOk(f, a);
    if !Above(f, a, b) {
      MeetIsLowest(f, f[a].parent.value, b, x);
    }
  }

  lemma {:induction false} TopIsAbove(f: Forest, a: Id)
    requires Consistent(f) && a < |f|
    ensures Above(f, Top(f, a), a)
    decreases a
  {
    assert ObjectOk(f, a);
    if f[a].parent.Some? {
      TopIsAbove(f, f[a].parent.value);
    }
  }

  lemma {:induction false} SameTop(f: Forest, a: Id, b: Id)
    requires Consistent(f) && b < |f| && Above(f, a, b)
    ensures a < |f| && Top(f, a) == Top(f, b)
    decreases b
  {
    AboveBounds(f, a, b);
    assert ObjectOk(f, b);
    if a != b {
      SameTop(f, a, f[b].parent.value);
    }
  }

  lemma {:induction false} BuildDown(f: Forest, built: string, from: Id, to: Id)
    requires Consistent(f) && from < |f| && to < |f| && Above(f, from, to)
    ensures BuildRelativePath(f, built, from, to) == Some(built + Down(f, from, to))
    decreases |f| - from
  {
    assert ObjectOk(f, from);
    ContainsIsAbove(f, from, to);
    if from == to {
      assert built + "" == built;
    } else {
      var c := ChildTowards(f, from, to);
      DownFirst(f, from, c, to);
      var next := built + f[c].name + "/";
      if to in f[from].children {
        OneChildTowards(f, from, to, c, to);
        assert built + (f[c].name + "/" + "") == next;
      } else {
        ContainsIsAbove(f, c, to);
        var containing := FirstContaining(f, f[from].children, to);
        ContainsIsAbove(f, containing.value, to);
        OneChildTowards(f, from, to, c, containing.value);
        BuildDown(f, next, c, to);
        assert next + Down(f, c, to) == built + (f[c].name + "/" + Down(f, c, to));
      }
    }
  }

  lemma {:induction false} BuildIs(f: Forest, built: string, from: Id, to: Id)
    requires Consistent(f) && from < |f| && to < |f|
    ensures BuildRelativePath(f, built, from, to) ==
      var m := Meet(f, from, to);
      if m.None? then None else Some(built + Ups(m.value.ups) + Down(f, m.value.at, to))
    decreases from
  {
    assert ObjectOk(f, from);
    ContainsIsAbove(f, from, to);
    if Above(f, from, to) {
      BuildDown(f, built, from, to);
      assert built + "" == built;
    } else if f[from].parent.Some? {
      var p := f[from].parent.value;
      BuildIs(f, built + UP, p, to);
      var m := Meet(f, p, to);
      if m.Some? {
        assert built + UP + Ups(m.value.ups) == built + Ups(m.value.ups + 1);
      }
    }
  }

  /**
    The path goes up exactly to the lowest object above both and straight down from
    there; there is none exactly if the objects are in different trees.
  */
  lemma {:induction false} PathShape(f: Forest, a: Id, b: Id)
    requires Consistent(f) && a < |f| && b < |f|
    ensures RelativePathTo(f, a, b).None? <==> Top(f, a) != Top(f, b)
    ensures var m := Meet(f, a, b);
            RelativePathTo(f, a, b) == if m.None? then None else Some(Ups(m.value.ups) + Down(f, m.value.at, b))
  {
    BuildIs(f, "", a, b);
    var m := Meet(f, a, b);
    if m.Some? {
      assert "" + Ups(m.value.ups) == Ups(m.value.ups);
      SameTop(f, m.value.at, a);
      SameTop(f, m.value.at, b);
    }
    if Top(f, a) == Top(f, b) {
      TopIsAbove(f, a);
      TopIsAbove(f, b);
      MeetIsLowest(f, a, b, Top(f, a));
    }
  }

  // ------------------------------------------------------------------------
  // Resolving a path again, here or in a copy
  // ------------------------------------------------------------------------

  /**
    The tree below `s` was copied below `t`: `copy` takes each object to its copy.
    The copy of `s` itself may have another name and another parent.
  */
  ghost predicate CopyOf(f: Forest, s: Id, g: Forest, t: Id, copy: map<Id, Id>) {
    && Consistent(f) && Consistent(g) && s < |f| && t < |g|
    && (forall n: Id :: n in copy <==> n < |f| && Above(f, s, n))
    && s in copy && copy[s] == t
    && forall n :: n in copy ==> CopiedAt(f, s, g, copy, n)
  }

  ghost predicate CopiedAt(f: Forest, s: Id, g: Forest, copy: map<Id, Id>, n: Id)
    requires n < |f| && n in copy
  {
    && copy[n] < |g|
    && (n != s ==> g[copy[n]].name == f[n].name)
    && |g[copy[n]].children| == |f[n].children|
    && forall x :: 0 <= x < |f[n].children| ==>
         f[n].children[x] in copy && g[copy[n]].children[x] == copy[f[n].children[x]]
  }

  lemma {:induction false} FirstSlash(m: string, n: string, rest: string)
    requires '/' !in m && '/' !in n && m + "/" <= n + "/" + rest
    ensures m == n
  {
    var p := n + "/" + rest;
    assert (m + "/")[|m|] == '/' && p[|n|] == '/';
    assert forall i :: 0 <= i < |m| ==> m[i] in m && (m + "/")[i] == m[i] == p[i];
    assert forall i :: 0 <= i < |n| ==> n[i] in n && p[i] == n[i];
    assert forall i :: 0 <= i < |m| || 0 <= i < |n| ==> p[i] != '/';
    assert |m| == |n| && m == p[..|m|] == n;
  }

  lemma {:induction false} NotUp(n: string, rest: string)
    requires GoodName(n)
    ensures n + "/" + rest != "" && !(UP <= n + "/" + rest) && !("/" <= n + "/" + rest)
  {
    if UP <= n + "/" + rest {
      assert ".." + "/" == UP;
      FirstSlash("..", n, rest);
    }
    assert n[0] in n && (n + "/" + rest)[0] == n[0];
  }

  /** The children of an object answer to their names. */
  lemma {:induction false} ChildForName(f: Forest, n: Id, c: Id, rest: string)
    requires Consistent(f) && n < |f| && c in f[n].children
    ensures ObjectOk(f, n) && c < |f| && GoodName(f[c].name)
    ensures ChildFor(f, f[n].children, f[c].name + "/" + rest) == Some(c)
  {
    assert ObjectOk(f, n) && ObjectOk(f, c) && NamesDiffer(f, n);
    var path := f[c].name + "/" + rest;
    assert f[c].name + "/" <= path;
    var d := ChildFor(f, f[n].children, path);
    assert ObjectOk(f, d.value);
    FirstSlash(f[d.value].name, f[c].name, rest);
  }

  lemma {:induction false} StepDown(f: Forest, n: Id, c: Id, rest: string)
    requires Consistent(f) && n < |f| && c in f[n].children
    ensures ObjectOk(f, n) && c < |f| && GetByPath(f, n, f[c].name + "/" + rest) == GetByPath(f, c, rest)
  {
    ChildForName(f, n, c, rest);
    NotUp(f[c].name, rest);
    assert (f[c].name + "/" + rest)[|f[c].name| + 1..] == rest;
  }

  lemma {:induction false} ChildCopied(f: Forest, s: Id, g: Forest, t: Id, copy: map<Id, Id>, n: Id, c: Id)
    requires CopyOf(f, s, g, t, copy) && n in copy && c in f[n].children && c < |f|
    ensures c in copy && copy[c] in g[copy[n]].children && g[copy[c]].name == f[c].name
    ensures g[copy[c]].parent == Some(copy[n])
  {
    assert CopiedAt(f, s, g, copy, n) && ObjectOk(f, n) && ObjectOk(g, copy[n]);
    var x :| 0 <= x < |f[n].children| && f[n].children[x] == c;
    assert CopiedAt(f, s, g, copy, c);
    AboveBounds(f, s, n);
  }

  lemma {:induction false} ResolveDown(f: Forest, s: Id, g: Forest, t: Id, copy: map<Id, Id>, a: Id, b: Id)
    requires CopyOf(f, s, g, t, copy) && a in copy && b in copy && Above(f, a, b)
    ensures GetByPath(g, copy[a], Down(f, a, b)) == There(copy[b])
    decreases |f| - a
  {
    assert CopiedAt(f, s, g, copy, a);
    if a != b {
      var c := ChildTowards(f, a, b);
      DownFirst(f, a, c, b);
      ChildCopied(f, s, g, t, copy, a, c);
      StepDown(g, copy[a], copy[c], Down(f, c, b));
      ResolveDown(f, s, g, t, copy, c, b);
    }
  }

  lemma {:induction false} ResolveUp(f: Forest, s: Id, g: Forest, t: Id, copy: map<Id, Id>, a: Id, b: Id)
    requires CopyOf(f, s, g, t, copy) && a in copy && b in copy && Meet(f, a, b).Some?
    ensures var m := Meet(f, a, b).value;
            GetByPath(g, copy[a], Ups(m.ups) + Down(f, m.at, b)) == There(copy[b])
    decreases a
  {
    hide GetByPath, Down, NamesDiffer, Meet;
    assert CopiedAt(f, s, g, copy, a) && ObjectOk(f, a);
    MeetStep(f, a, b);
    var m := Meet(f, a, b).value;
    if Above(f, a, b) {
      assert "" + Down(f, a, b) == Down(f, a, b);
      ResolveDown(f, s, g, t, copy, a, b);
    } else {
      MeetIsLowest(f, a, b, s);
      var p := f[a].parent.value;
      assert a != s && Above(f, s, p);
      ChildCopied(f, s, g, t, copy, p, a);
      ResolveUp(f, s, g, t, copy, p, b);
      var rest := Ups(m.ups - 1) + Down(f, m.at, b);
      assert Ups(m.ups) + Down(f, m.at, b) == UP + rest;
      StepUp(g, copy[a], rest);
    }
  }

  lemma {:induction false} MeetStep(f: Forest, a: Id, b: Id)
    requires Consistent(f) && a < |f| && b < |f|
    ensures ObjectOk(f, a)
    ensures Above(f, a, b) ==> Meet(f, a, b) == Some(Meeting(a, 0))
    ensures !Above(f, a, b) && f[a].parent.Some? && Meet(f, a, b).Some? ==>
              var up := Meet(f, f[a].parent.value, b);
              up.Some? && Meet(f, a, b) == Some(Meeting(up.value.at, up.value.ups + 1))
    ensures !Above(f, a, b) && f[a].parent.None? ==> Meet(f, a, b) == None
  {
    assert ObjectOk(f, a);
  }

  lemma {:induction false} StepUp(f: Forest, n: Id, rest: string)
    requires Consistent(f) && n < |f| && f[n].parent.Some?
    ensures f[n].parent.value < |f| && GetByPath(f, n, UP + rest) == GetByPath(f, f[n].parent.value, rest)
  {
    assert ObjectOk(f, n);
    assert (UP + rest)[|UP|..] == rest;
  }

  /** A path between two objects of a tree leads, in any copy of it, between their copies. */
  lemma {:induction false} PathHoldsInCopy(f: Forest, s: Id, g: Forest, t: Id, copy: map<Id, Id>, a: Id, b: Id)
    requires CopyOf(f, s, g, t, copy) && a in copy && b in copy
    ensures RelativePathTo(f, a, b).Some?
    ensures GetByPath(g, copy[a], RelativePathTo(f, a, b).value) == There(copy[b])
  {
    MeetIsLowest(f, a, b, s);
    PathShape(f, a, b);
    ResolveUp(f, s, g, t, copy, a, b);
  }

  /** In one tree, following the relative path to an object leads to it. */
  lemma {:induction false} PathRoundTrip(f: Forest, a: Id, b: Id)
    requires Consistent(f) && a < |f| && b < |f| && Top(f, a) == Top(f, b)
    ensures RelativePathTo(f, a, b).Some? && GetByPath(f, a, RelativePathTo(f, a, b).value) == There(b)
  {
    var s := Top(f, a);
    var same := map n: Id | n < |f| && Above(f, s, n) :: n;
    TopIsAbove(f, a);
    TopIsAbove(f, b);
    forall n | n in same ensures CopiedAt(f, s, f, same, n) {
      assert ObjectOk(f, n);
      forall x | 0 <= x < |f[n].children| ensures f[n].children[x] in same {
        assert f[n].children[x] in f[n].children;
        AboveTransitive(f, s, n, f[n].children[x]);
      }
    }
    PathHoldsInCopy(f, s, f, s, same, a, b);
  }
}
