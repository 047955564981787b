/** Argument objects flattened to dotted leaf paths, and why the string tests on those paths decide questions
    about the object tree. */
module ArgumentPaths {
  import opened Wrappers

  /** JSON values; an object lists its fields in order, and its keys are distinct. */
  datatype Json =
    | Null
    | Bool(b: bool)
    | Int(i: int)
    | Number(r: real)
    | Text(s: string)
    | List(items: seq<Json>)
    | Object(fields: seq<Field>)

  datatype Field = Field(key: string, value: Json)

  predicate DotFree(s: string) {
    forall i :: 0 <= i < |s| ==> s[i] != '.'
  }

  predicate Segment(s: string) {
    s != "" && DotFree(s)
  }

  predicate Segments(p: seq<string>) {
    forall i :: 0 <= i < |p| ==> Segment(p[i])
  }

  predicate AllDotFree(p: seq<string>) {
    forall i :: 0 <= i < |p| ==> DotFree(p[i])
  }

  predicate Keyed(fields: seq<Field>) {
    forall i, j :: 0 <= i < j < |fields| ==> fields[i].key != fields[j].key
  }

  /** Every object in the value is a mapping. */
  predicate Mapping(v: Json) {
    v.Object? ==> Keyed(v.fields) && forall i :: 0 <= i < |v.fields| ==> Mapping(v.fields[i].value)
  }

  /** Every object key in the value is a path segment; keys inside lists are never looked at. */
  predicate GoodKeys(v: Json) {
    v.Object? ==> forall i :: 0 <= i < |v.fields| ==> Segment(v.fields[i].key) && GoodKeys(v.fields[i].value)
  }

  // ---- The tree view ----

  function FieldAt(fields: seq<Field>, key: string): (r: Option<nat>)
    ensures r.Some? ==> r.value < |fields| && fields[r.value].key == key
    ensures r.None? ==> forall i :: 0 <= i < |fields| ==> fields[i].key != key
  {
    if fields == [] then None
    else if fields[0].key == key then Some(0)
    else
      match FieldAt(fields[1..], key)
      case None => None
      case Some(k) => Some(k + 1)
  }

  /** The value reached by following the segments from object to object. */
  function Walk(v: Json, p: seq<string>): Option<Json>
    decreases |p|
  {
    if p == [] then Some(v)
    else if v.Object? && FieldAt(v.fields, p[0]).Some? then Walk(v.fields[FieldAt(v.fields, p[0]).value].value, p[1..])
    else None
  }

  /** A value with nothing below it: anything but a non-empty object. */
  predicate Leaf(v: Json) {
    v.Object? ==> v.fields == []
  }

  predicate LeafAt(v: Json, p: seq<string>) {
    p != [] && Walk(v, p).Some? && Leaf(Walk(v, p).value)
  }

  // ---- The paths ----

  /** The segment paths to the leaves of a value. */
  function Leaves(v: Json): set<seq<string>>
    decreases v, 1, 0
  {
    if Leaf(v) then {[]} else LeavesUpTo(v, |v.fields|)
  }

  /** Those that start with one of the first `n` keys. */
  function LeavesUpTo(v: Json, n: nat): (r: set<seq<string>>)
    requires v.Object? && n <= |v.fields|
    ensures [] !in r
    decreases v, 0, n
  {
    if n == 0 then {}
    else LeavesUpTo(v, n - 1) + Prepend(v.fields[n - 1].key, Leaves(v.fields[n - 1].value))
  }

  function Prepend(key: string, paths: set<seq<string>>): set<seq<string>> {
    set p | p in paths :: [key] + p
  }

  function Join(p: seq<string>): string
    requires p != []
  {
    if |p| == 1 then p[0] else p[0] + "." + Join(p[1..])
  }

  /** A path below a dotted prefix; the empty prefix is the root. */
  function Under(prefix: string, p: seq<string>): string
    requires p != []
  {
    if prefix == "" then Join(p) else prefix + "." + Join(p)
  }

  /** The dotted paths of a set of segment paths. */
  function Render(paths: set<seq<string>>, prefix: string): set<string>
    requires [] !in paths
  {
    set p | p in paths :: Under(prefix, p)
  }

  lemma {:induction false} LeavesExist(v: Json)
    ensures Leaves(v) != {}
    ensures v.Object? && v.fields != [] ==> LeavesUpTo(v, |v.fields|) != {}
  {
    if Leaf(v) {
      assert [] in Leaves(v);
    } else {
      var last := v.fields[|v.fields| - 1];
      LeavesExist(last.value);
      var p :| p in Leaves(last.value);
      assert [last.key] + p in LeavesUpTo(v, |v.fields|);
    }
  }

  lemma UnderNested(prefix: string, key: string, p: seq<string>)
    requires key != ""
    ensures Under(prefix, [key]) != ""
    ensures Under(prefix, [key] + p) == if p == [] then Under(prefix, [key]) else Under(Under(prefix, [key]), p)
  {
    assert ([key] + p)[1..] == p;
    if p != [] {
      assert Join([key] + p) == key + "." + Join(p);
      assert prefix + "." + (key + "." + Join(p)) == (prefix + "." + key) + "." + Join(p);
    } else {
      assert [key] + p == [key];
    }
  }

  /** One more field adds its own path when its value is a leaf, and the rendered leaves below it otherwise. */
  lemma RenderNext(v: Json, n: nat, prefix: string)
    requires v.Object? && n < |v.fields| && v.fields[n].key != ""
    ensures var field := v.fields[n];
            var path := Under(prefix, [field.key]);
            Render(LeavesUpTo(v, n + 1), prefix)
            == Render(LeavesUpTo(v, n), prefix)
               + (if Leaf(field.value) then {path} else Render(LeavesUpTo(field.value, |field.value.fields|), path))
  {
    var field := v.fields[n];
    var path := Under(prefix, [field.key]);
    var below := Leaves(field.value);
    var added := if Leaf(field.value) then {path} else Render(LeavesUpTo(field.value, |field.value.fields|), path);
    forall p | p in below ensures Under(prefix, [field.key] + p) in added {
      UnderNested(prefix, field.key, p);
    }
    forall q | q in added ensures exists p :: p in below && q == Under(prefix, [field.key] + p) {
      if Leaf(field.value) {
        UnderNested(prefix, field.key, []);
        assert [] in below;
      } else {
        var p :| p in below && q == Under(path, p);
        UnderNested(prefix, field.key, p);
      }
    }
    forall q ensures q in Render(LeavesUpTo(v, n + 1), prefix) <==> q in Render(LeavesUpTo(v, n), prefix) + added {
      if q in added {
        var p :| p in below && q == Under(prefix, [field.key] + p);
        assert [field.key] + p in LeavesUpTo(v, n + 1);
      }
    }
  }

  /** The flattening loop raises exactly when some key is not a segment; otherwise it returns the dotted paths
      of the leaves below the prefix. */
  method ArgumentLeafPaths(v: Json, prefix: string) returns (r: Option<set<string>>)
    requires v.Object?
    ensures r.Some? <==> GoodKeys(v)
    ensures r.Some? ==> r.value == Render(LeavesUpTo(v, |v.fields|), prefix)
    decreases v
  {
    var paths: set<string> := {};
    for i := 0 to |v.fields|
      invariant forall j :: 0 <= j < i ==> Segment(v.fields[j].key) && GoodKeys(v.fields[j].value)
      invariant paths == Render(LeavesUpTo(v, i), prefix)
    {
      var key, item := v.fields[i].key, v.fields[i].value;
      if key == "" || !DotFree(key) {
        return None;
      }
      var path := if prefix != "" then prefix + "." + key else key;
      RenderNext(v, i, prefix);
      if item.Object? {
        var nested := ArgumentLeafPaths(item, path);
        if nested.None? {
          return None;
        }
        if nested.value != {} {
          paths := paths + nested.value;
        } else {
          paths := paths + {path};
        }
        if item.fields != [] {
          LeavesExist(item);
          ghost var p :| p in LeavesUpTo(item, |item.fields|);
          assert Under(path, p) in nested.value;
        }
      } else {
        paths := paths + {path};
      }
    }
    return Some(paths);
  }

  // ---- Leaves and walks ----

  lemma FieldAtKey(fields: seq<Field>, i: nat)
    requires Keyed(fields) && i < |fields|
    ensures FieldAt(fields, fields[i].key) == Some(i)
  {
  }

  /** The leaf paths are exactly the paths on which walking the tree ends at a leaf. */
  lemma {:induction false} LeavesAreLeafWalks(v: Json, p: seq<string>)
    requires Mapping(v)
    ensures p in Leaves(v) <==> Walk(v, p).Some? && Leaf(Walk(v, p).value)
    decreases v, 1, 0
  {
    if Leaf(v) {
      if p != [] && v.Object? {
        assert FieldAt(v.fields, p[0]).None?;
      }
    } else {
      LeavesUpToAreLeafWalks(v, |v.fields|, p);
    }
  }

  lemma {:induction false} LeavesUpToAreLeafWalks(v: Json, n: nat, p: seq<string>)
    requires Mapping(v) && v.Object? && n <= |v.fields|
    ensures p in LeavesUpTo(v, n)
       <==> p != [] && FieldAt(v.fields, p[0]).Some? && FieldAt(v.fields, p[0]).value < n
            && Walk(v, p).Some? && Leaf(Walk(v, p).value)
    decreases v, 0, n
  {
    if n > 0 {
      var field := v.fields[n - 1];
      LeavesUpToAreLeafWalks(v, n - 1, p);
      FieldAtKey(v.fields, n - 1);
      if p != [] {
        LeavesAreLeafWalks(field.value, p[1..]);
        assert p == [p[0]] + p[1..];
        var added := Prepend(field.key, Leaves(field.value));
        assert p in added <==> p[0] == field.key && p[1..] in Leaves(field.value) by {
          forall q | q in Leaves(field.value) && p == [field.key] + q ensures q == p[1..] {
          }
        }
      }
    }
  }

  /** A path can be walked exactly when some leaf path continues it. */
  lemma {:induction false} WalkIffLeafBelow(v: Json, p: seq<string>)
    requires Mapping(v)
    ensures Walk(v, p).Some? <==> exists q :: q in Leaves(v) && p <= q
    decreases |p|
  {
    if p == [] {
      LeavesExist(v);
      var q :| q in Leaves(v);
      assert p <= q;
    } else {
      var at := if v.Object? then FieldAt(v.fields, p[0]) else None;
      if at.Some? {
        var child := v.fields[at.value].value;
        WalkIffLeafBelow(child, p[1..]);
        if Walk(v, p).Some? {
          var q :| q in Leaves(child) && p[1..] <= q;
          LeavesAreLeafWalks(child, q);
          LeavesAreLeafWalks(v, [p[0]] + q);
          assert ([p[0]] + q)[1..] == q;
          assert p == [p[0]] + p[1..];
          assert p <= [p[0]] + q;
        }
      }
      forall q | q in Leaves(v) && p <= q ensures Walk(v, p).Some? {
        LeavesAreLeafWalks(v, q);
        LeavesAreLeafWalks(v.fields[at.value].value, q[1..]);
        assert p[1..] <= q[1..];
      }
    }
  }

  /** No leaf path is a proper prefix of another. */
  lemma {:induction false} LeavesPrefixFree(v: Json, p: seq<string>, q: seq<string>)
    requires Mapping(v) && p in Leaves(v) && q in Leaves(v) && p <= q
    ensures p == q
    decreases |p|
  {
    LeavesAreLeafWalks(v, p);
    LeavesAreLeafWalks(v, q);
    if p != [] {
      var child := v.fields[FieldAt(v.fields, p[0]).value].value;
      LeavesAreLeafWalks(child, p[1..]);
      LeavesAreLeafWalks(child, q[1..]);
      LeavesPrefixFree(child, p[1..], q[1..]);
      assert p == [p[0]] + p[1..] && q == [q[0]] + q[1..];
    }
  }

  /** Keys below a value with good keys are segments. */
  lemma {:induction false} LeafSegments(v: Json, p: seq<string>)
    requires Mapping(v) && GoodKeys(v) && p in Leaves(v)
    ensures Segments(p)
    decreases |p|
  {
    LeavesAreLeafWalks(v, p);
    if p != [] {
      var child := v.fields[FieldAt(v.fields, p[0]).value].value;
      LeavesAreLeafWalks(child, p[1..]);
      LeafSegments(child, p[1..]);
      assert p == [p[0]] + p[1..];
    }
  }

  // ---- Dotted strings ----

  /** Segments can be read back from the dotted string: prefixes of strings at a dot are prefixes of paths. */
  lemma {:induction false} JoinPrefix(p: seq<string>, q: seq<string>)
    requires p != [] && q != [] && AllDotFree(p) && AllDotFree(q)
    ensures Join(p) + "." <= Join(q) <==> p < q
    ensures Join(p) == Join(q) <==> p == q
    decreases |p|
  {
    var a, b := Join(p), Join(q);
    HeadsAgree(p, q);
    if p[0] == q[0] {
      if |p| > 1 && |q| > 1 {
        JoinPrefix(p[1..], q[1..]);
        assert p == [p[0]] + p[1..] && q == [q[0]] + q[1..];
        assert p < q <==> p[1..] < q[1..];
        DropHead(p[0], Join(p[1..]) + ".", Join(q[1..]));
        assert a + "." == p[0] + "." + (Join(p[1..]) + ".");
        DropHead(p[0], Join(p[1..]), Join(q[1..]));
        DropHead(p[0], Join(q[1..]), Join(p[1..]));
      } else if |p| == 1 {
        assert |q| > 1 ==> b == q[0] + "." + Join(q[1..]);
        assert |q| == 1 ==> q == [q[0]] && p == [p[0]];
        assert p <= q;
      } else {
        assert a == p[0] + "." + Join(p[1..]);
        assert |a| > |b|;
      }
    }
  }

  lemma HeadOfJoin(p: seq<string>)
    requires p != []
    ensures p[0] <= Join(p)
    ensures |p| > 1 ==> p[0] + "." <= Join(p)
  {
  }

  lemma DropHead(head: string, a: string, b: string)
    ensures head + "." + a <= head + "." + b <==> a <= b
  {
    assert (head + "." + a)[|head| + 1..] == a;
    assert (head + "." + b)[|head| + 1..] == b;
    if a <= b {
      assert b == a + b[|a|..];
      assert head + "." + b == head + "." + a + b[|a|..];
    }
  }

  /** The first segment ends at the first dot. */
  lemma HeadsAgree(p: seq<string>, q: seq<string>)
    requires p != [] && q != [] && AllDotFree(p) && AllDotFree(q)
    ensures Join(p) + "." <= Join(q) || Join(p) == Join(q) ==> p[0] == q[0]
  {
    var x, y := p[0], q[0];
    var a, b := Join(p) + ".", Join(q) + ".";
    HeadOfJoin(p);
    HeadOfJoin(q);
    assert a[..|x|] == x && a[|x|] == '.';
    assert b[..|y|] == y && b[|y|] == '.';
    if a <= Join(q) || Join(p) == Join(q) {
      assert a <= b;
      assert |x| == |y|;
      assert b[..|x|] == a[..|x|];
    }
  }

  function FirstDot(s: string): (r: Option<nat>)
    ensures r.Some? ==> r.value < |s| && s[r.value] == '.' && DotFree(s[..r.value])
    ensures r.None? ==> DotFree(s)
  {
    if s == "" then None
    else if s[0] == '.' then Some(0)
    else
      match FirstDot(s[1..])
      case None => None
      case Some(k) =>
        assert s[..k + 1] == [s[0]] + s[1..][..k];
        Some(k + 1)
  }

  /** The dot-separated pieces of a string, empty ones included. */
  function Split(s: string): (p: seq<string>)
    ensures p != [] && AllDotFree(p)
    decreases |s|
  {
    match FirstDot(s)
    case None => [s]
    case Some(k) => [s[..k]] + Split(s[k + 1..])
  }

  lemma {:induction false} JoinSplit(s: string)
    ensures Join(Split(s)) == s
    decreases |s|
  {
    var dot := FirstDot(s);
    if dot.Some? {
      JoinSplit(s[dot.value + 1..]);
      assert s == s[..dot.value] + "." + s[dot.value + 1..];
    }
  }

  // ---- What the string tests decide ----

  predicate ContainsPath(paths: set<string>, required: string) {
    required in paths || exists path :: path in paths && required + "." <= path
  }

  /** The dotted leaf paths of an argument object. */
  function DottedLeaves(v: Json): set<string>
    requires v.Object?
  {
    Render(LeavesUpTo(v, |v.fields|), "")
  }

  lemma DottedLeafMembers(v: Json, path: string)
    requires v.Object? && Mapping(v) && GoodKeys(v)
    ensures path in DottedLeaves(v) <==> exists p :: LeafAt(v, p) && Segments(p) && path == Join(p)
  {
    forall p ensures p in LeavesUpTo(v, |v.fields|) <==> LeafAt(v, p) {
      if v.fields != [] {
        LeavesAreLeafWalks(v, p);
      } else if p != [] {
        assert FieldAt(v.fields, p[0]).None?;
      }
    }
    forall p | p in LeavesUpTo(v, |v.fields|) ensures Segments(p) {
      LeafSegments(v, p);
    }
  }

  /** A required path is found among the dotted leaves exactly when walking the object along its dot-separated
      pieces reaches a value. No requirement on the path: a malformed one is neither found nor walkable. */
  lemma ContainsPathIffWalk(v: Json, required: string)
    requires v.Object? && Mapping(v) && GoodKeys(v)
    ensures ContainsPath(DottedLeaves(v), required) <==> Walk(v, Split(required)).Some?
  {
    var p := Split(required);
    JoinSplit(required);
    WalkIffLeafBelow(v, p);
    forall path | path in DottedLeaves(v) && (required == path || required + "." <= path)
      ensures Walk(v, p).Some?
    {
      DottedLeafMembers(v, path);
      var q :| LeafAt(v, q) && Segments(q) && path == Join(q);
      JoinPrefix(p, q);
      LeavesAreLeafWalks(v, q);
      assert p <= q;
    }
    if Walk(v, p).Some? {
      var q :| q in Leaves(v) && p <= q;
      LeavesAreLeafWalks(v, q);
      LeafSegments(v, q);
      assert LeafAt(v, q);
      DottedLeafMembers(v, Join(q));
      JoinPrefix(p, q);
      assert Join(q) in DottedLeaves(v);
    }
  }

  /** No dotted leaf path lies below another one. */
  lemma DottedLeavesPrefixFree(v: Json, a: string, b: string)
    requires v.Object? && Mapping(v) && GoodKeys(v)
    requires a in DottedLeaves(v) && b in DottedLeaves(v)
    ensures !(a + "." <= b)
  {
    DottedLeafMembers(v, a);
    DottedLeafMembers(v, b);
    var p :| LeafAt(v, p) && Segments(p) && a == Join(p);
    var q :| LeafAt(v, q) && Segments(q) && b == Join(q);
    JoinPrefix(p, q);
    LeavesAreLeafWalks(v, p);
    LeavesAreLeafWalks(v, q);
    if p <= q {
      LeavesPrefixFree(v, p, q);
    }
  }

  /** The string tests of the permission check. */
  predicate ArgumentsFit(paths: set<string>, allowed: set<string>, required: set<string>) {
    paths <= allowed && forall path :: path in required ==> ContainsPath(paths, path)
  }

  /** They decide the tree question: every leaf of the object is at an allowed path, and every required path
      leads to a value. */
  lemma ArgumentsFitTree(v: Json, allowed: set<string>, required: set<string>)
    requires v.Object? && Mapping(v) && GoodKeys(v)
    ensures ArgumentsFit(DottedLeaves(v), allowed, required)
       <==> (forall p :: LeafAt(v, p) ==> Join(p) in allowed)
            && (forall path :: path in required ==> Walk(v, Split(path)).Some?)
  {
    forall path ensures path in DottedLeaves(v) <==> exists p :: LeafAt(v, p) && Segments(p) && path == Join(p) {
      DottedLeafMembers(v, path);
    }
    forall p | LeafAt(v, p) ensures Segments(p) && Join(p) in DottedLeaves(v) {
      LeavesAreLeafWalks(v, p);
      LeafSegments(v, p);
    }
    forall path ensures ContainsPath(DottedLeaves(v), path) <==> Walk(v, Split(path)).Some? {
      ContainsPathIffWalk(v, path);
    }
  }
}
