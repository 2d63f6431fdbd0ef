/** app/h5_browser.py: `H5SciCatDataset`, which collects the attributes of
    the groups and datasets of an HDF5 file into the nested dictionary
    `metadata_dictionary`. The file itself is not modelled: each call is
    given an object's name and its attributes. */
module H5Browser {
  import opened Wrappers
  import opened PyText
  import opened Metadata

  /** A value of the nested dictionary: a dictionary, or an attribute value. */
  datatype Node = Group(children: map<string, Node>) | Leaf(value: Value)

  type Tree = map<string, Node>

  /** The dictionary `{name: value}` of an object's attributes. */
  function AttrsGroup(attrs: map<string, Value>): (g: Tree)
    ensures g.Keys == attrs.Keys
    ensures forall a :: a in attrs ==> g[a] == Leaf(attrs[a])
  {
    map a | a in attrs :: Leaf(attrs[a])
  }

  /** The dictionary reached from `t` along `path`, if every step names a
      dictionary. */
  function GroupAt(t: Tree, path: seq<string>): Option<Tree>
    decreases path
  {
    if path == [] then Some(t)
    else if path[0] in t && t[path[0]].Group? then GroupAt(t[path[0]].children, path[1..])
    else None
  }

  /** `t` with the dictionary at `path` replaced by `g`: what writing through
      a reference to that dictionary does. */
  function PutGroup(t: Tree, path: seq<string>, g: Tree): Tree
    requires GroupAt(t, path).Some?
    decreases path
  {
    if path == [] then g
    else t[path[0] := Group(PutGroup(t[path[0]].children, path[1..], g))]
  }

  lemma {:induction false} PutGroupAt(t: Tree, path: seq<string>, g: Tree)
    requires GroupAt(t, path).Some?
    ensures GroupAt(PutGroup(t, path, g), path) == Some(g)
    decreases path
  {
    if path != [] {
      PutGroupAt(t[path[0]].children, path[1..], g);
    }
  }

  lemma {:induction false} GroupAtExtend(t: Tree, path: seq<string>, key: string)
    requires GroupAt(t, path).Some?
    requires key in GroupAt(t, path).value && GroupAt(t, path).value[key].Group?
    ensures GroupAt(t, path + [key]) == Some(GroupAt(t, path).value[key].children)
    decreases path
  {
    if path == [] {
      assert path + [key] == [key];
    } else {
      assert (path + [key])[1..] == path[1..] + [key];
      GroupAtExtend(t[path[0]].children, path[1..], key);
    }
  }

  /** `b` has everything `a` has: no key is removed, no attribute value
      changes, and every dictionary keeps (at least) its entries. */
  predicate Grows(a: Node, b: Node) {
    match a
    case Leaf(_) => b == a
    case Group(ca) =>
      b.Group? && forall k :: k in ca ==> k in b.children && Grows(ca[k], b.children[k])
  }

  lemma {:induction false} GrowsRefl(a: Node)
    ensures Grows(a, a)
  {
    if a.Group? {
      forall k | k in a.children ensures Grows(a.children[k], a.children[k]) {
        GrowsRefl(a.children[k]);
      }
    }
  }

  /** Growing one dictionary inside a tree grows the tree. */
  lemma {:induction false} PutGroupGrows(t: Tree, path: seq<string>, g: Tree)
    requires GroupAt(t, path).Some?
    requires Grows(Group(GroupAt(t, path).value), Group(g))
    ensures Grows(Group(t), Group(PutGroup(t, path, g)))
    decreases path
  {
    if path != [] {
      var t' := PutGroup(t, path, g);
      PutGroupGrows(t[path[0]].children, path[1..], g);
      forall k | k in t ensures k in t' && Grows(t[k], t'[k]) {
        if k != path[0] {
          GrowsRefl(t[k]);
        }
      }
    }
  }

  /** Where the cursor `d` of `nest_json` is: at the dictionary found along
      `path`, or at an attribute value. */
  datatype Cursor = AtGroup(path: seq<string>) | AtLeaf

  predicate CursorOk(t: Tree, c: Cursor) {
    c.AtGroup? ==> GroupAt(t, c.path).Some?
  }

  /** The tree after a walk, and the cursor (or the exception) it ends with. */
  datatype WalkOutcome = WalkOutcome(tree: Tree, cursor: Result<Cursor>)

  /** The first loop of `nest_json` on the remaining segments: an existing
      key moves the cursor into its value; a missing key is added with an
      empty dictionary and the cursor stays where it is; a cursor on an
      attribute value has no `keys()` and raises AttributeError, keeping the
      additions made so far. */
  function Walk(t: Tree, cur: Cursor, segs: seq<string>): (o: WalkOutcome)
    requires CursorOk(t, cur)
    ensures o.cursor.Ok? ==> CursorOk(o.tree, o.cursor.value)
    ensures o.cursor.Err? ==> o.cursor == Err(AttributeError)
    ensures Grows(Group(t), Group(o.tree))
    decreases segs
  {
    if segs == [] then
      GrowsRefl(Group(t));
      WalkOutcome(t, Ok(cur))
    else
      match cur
      case AtLeaf =>
        GrowsRefl(Group(t));
        WalkOutcome(t, Err(AttributeError))
      case AtGroup(p) =>
        var g := GroupAt(t, p).value;
        var key := segs[0];
        if key in g then
          if g[key].Group? then
            GroupAtExtend(t, p, key);
            Walk(t, AtGroup(p + [key]), segs[1..])
          else
            Walk(t, AtLeaf, segs[1..])
        else
          var t' := PutGroup(t, p, g[key := Group(map[])]);
          PutGroupAt(t, p, g[key := Group(map[])]);
          GrowsAdd(g, key);
          PutGroupGrows(t, p, g[key := Group(map[])]);
          var o := Walk(t', AtGroup(p), segs[1..]);
          GrowsTrans(Group(t), Group(t'), Group(o.tree));
          o
  }

  lemma GrowsAdd(g: Tree, key: string)
    requires key !in g
    ensures Grows(Group(g), Group(g[key := Group(map[])]))
  {
    forall k | k in g ensures Grows(g[k], g[key := Group(map[])][k]) {
      GrowsRefl(g[k]);
    }
  }

  lemma {:induction false} GrowsTrans(a: Node, b: Node, c: Node)
    requires Grows(a, b) && Grows(b, c)
    ensures Grows(a, c)
  {
    if a.Group? {
      forall k | k in a.children ensures k in c.children && Grows(a.children[k], c.children[k]) {
        GrowsTrans(a.children[k], b.children[k], c.children[k]);
      }
    }
  }

  /** The tree after `nest_json` and whether it raised. */
  datatype NestOutcome = NestOutcome(tree: Tree, result: Result<()>)

  /** The second loop of `nest_json`: each attribute is written into
      `d[key]`, `key` being the last segment. With no attributes nothing is
      looked up. A missing `d[key]` raises KeyError; an attribute value in
      its place, or a cursor on one, does not take item assignment
      (TypeError). */
  function WriteAttrs(t: Tree, cur: Cursor, last: string, attrs: map<string, Value>): (o: NestOutcome)
    requires CursorOk(t, cur)
    ensures o.result.Err? ==> o.tree == t
    ensures o.result.Ok? && attrs != map[] ==>
      && cur.AtGroup? && GroupAt(t, cur.path + [last]).Some?
      && GroupAt(o.tree, cur.path + [last]) == Some(GroupAt(t, cur.path + [last]).value + AttrsGroup(attrs))
    ensures o.result.Ok? && attrs != map[] ==>
      o.tree == PutGroup(t, cur.path + [last], GroupAt(t, cur.path + [last]).value + AttrsGroup(attrs))
    ensures attrs == map[] ==> o == NestOutcome(t, Ok(()))
  {
    if attrs == map[] then NestOutcome(t, Ok(()))
    else
      match cur
      case AtLeaf => NestOutcome(t, Err(TypeError))
      case AtGroup(p) =>
        var g := GroupAt(t, p).value;
        if last !in g then NestOutcome(t, Err(KeyError))
        else if g[last].Leaf? then NestOutcome(t, Err(TypeError))
        else
          GroupAtExtend(t, p, last);
          var dest := g[last].children + AttrsGroup(attrs);
          PutGroupAt(t, p + [last], dest);
          NestOutcome(PutGroup(t, p + [last], dest), Ok(()))
  }

  /** `nest_json(k, v)` on the dictionary `t`. */
  function NestJsonSpec(t: Tree, k: string, attrs: map<string, Value>): NestOutcome {
    var segs := Split(k, '/');
    var w := Walk(t, AtGroup([]), segs);
    match w.cursor
    case Err(e) => NestOutcome(w.tree, Err(e))
    case Ok(cur) => WriteAttrs(w.tree, cur, segs[|segs| - 1], attrs)
  }

  class H5SciCatDataset {
    var metadataDictionary: Tree

    /** The constructor's empty `metadata_dictionary` (opening the file and
        reading its time, size and name are not modelled). */
    constructor ()
      ensures metadataDictionary == map[]
    {
      metadataDictionary := map[];
    }

    /** `get_info(k, v)`: entry `k` becomes a fresh dictionary of exactly
        `v`'s attributes; every other entry stays. */
    method GetInfo(k: string, attrs: map<string, Value>)
      modifies this
      ensures metadataDictionary == old(metadataDictionary)[k := Group(AttrsGroup(attrs))]
    {
      metadataDictionary := metadataDictionary[k := Group(map[])];
      var info: Tree := map[];
      var remaining := attrs.Keys;
      while remaining != {}
        invariant remaining <= attrs.Keys
        invariant info.Keys == attrs.Keys - remaining
        invariant forall a :: a in info ==> info[a] == Leaf(attrs[a])
        invariant metadataDictionary == old(metadataDictionary)[k := Group(info)]
        decreases remaining
      {
        var a :| a in remaining;
        info := info[a := Leaf(attrs[a])];
        metadataDictionary := metadataDictionary[k := Group(info)];
        remaining := remaining - {a};
      }
      assert info == AttrsGroup(attrs);
    }

    /** `nest_json(k, v)`: walks the segments of `k` with a cursor into
        `metadata_dictionary`, adding missing keys, then writes `v`'s
        attributes through the cursor. Whatever it added before raising
        stays in the dictionary. */
    method NestJson(k: string, attrs: map<string, Value>) returns (r: Result<()>)
      modifies this
      ensures NestOutcome(metadataDictionary, r) == NestJsonSpec(old(metadataDictionary), k, attrs)
    {
      var segs := Split(k, '/');
      var cur := WalkSegments(segs);
      if cur.Err? {
        return Err(cur.error);
      }
      r := WriteAttributes(cur.value, segs[|segs| - 1], attrs);
    }

    /** The first loop of `nest_json`. */
    method WalkSegments(segs: seq<string>) returns (cur: Result<Cursor>)
      modifies this
      ensures WalkOutcome(metadataDictionary, cur) == Walk(old(metadataDictionary), AtGroup([]), segs)
    {
      var at := AtGroup([]);
      var i := 0;
      while i < |segs|
        invariant 0 <= i <= |segs|
        invariant CursorOk(metadataDictionary, at)
        invariant Walk(old(metadataDictionary), AtGroup([]), segs)
               == Walk(metadataDictionary, at, segs[i..])
      {
        assert segs[i..][1..] == segs[i + 1..];
        if at.AtLeaf? {
          return Err(AttributeError);
        }
        var p := at.path;
        var d := GroupAt(metadataDictionary, p).value;
        var key := segs[i];
        if key in d {
          if d[key].Group? {
            GroupAtExtend(metadataDictionary, p, key);
            at := AtGroup(p + [key]);
          } else {
            at := AtLeaf;
          }
        } else {
          PutGroupAt(metadataDictionary, p, d[key := Group(map[])]);
          metadataDictionary := PutGroup(metadataDictionary, p, d[key := Group(map[])]);
        }
        i := i + 1;
      }
      return Ok(at);
    }

    /** The second loop of `nest_json`, writing into `d[last]`. */
    method WriteAttributes(cur: Cursor, last: string, attrs: map<string, Value>) returns (r: Result<()>)
      requires CursorOk(metadataDictionary, cur)
      modifies this
      ensures NestOutcome(metadataDictionary, r) == WriteAttrs(old(metadataDictionary), cur, last, attrs)
    {
      if attrs == map[] {
        return Ok(());
      }
      if cur.AtLeaf? {
        return Err(TypeError);
      }
      var d := GroupAt(metadataDictionary, cur.path).value;
      if last !in d {
        return Err(KeyError);
      }
      if d[last].Leaf? {
        return Err(TypeError);
      }
      var dest := cur.path + [last];
      GroupAtExtend(metadataDictionary, cur.path, last);
      var start := metadataDictionary;
      var before := d[last].children;
      var target := before;
      var remaining := attrs.Keys;
      PutGroupSame(start, dest);
      while remaining != {}
        invariant remaining <= attrs.Keys
        invariant target.Keys == before.Keys + (attrs.Keys - remaining)
        invariant forall x :: x in target ==>
          target[x] == if x in attrs && x !in remaining then Leaf(attrs[x]) else before[x]
        invariant metadataDictionary == PutGroup(start, dest, target)
        decreases remaining
      {
        var a :| a in remaining;
        PutGroupTwice(start, dest, target, target[a := Leaf(attrs[a])]);
        target := target[a := Leaf(attrs[a])];
        metadataDictionary := PutGroup(start, dest, target);
        remaining := remaining - {a};
      }
      assert target == before + AttrsGroup(attrs);
      return Ok(());
    }
  }

  lemma {:induction false} PutGroupSame(t: Tree, path: seq<string>)
    requires GroupAt(t, path).Some?
    ensures PutGroup(t, path, GroupAt(t, path).value) == t
    decreases path
  {
    if path != [] {
      PutGroupSame(t[path[0]].children, path[1..]);
    }
  }

  lemma {:induction false} PutGroupTwice(t: Tree, path: seq<string>, g1: Tree, g2: Tree)
    requires GroupAt(t, path).Some?
    ensures GroupAt(PutGroup(t, path, g1), path).Some?
    ensures PutGroup(PutGroup(t, path, g1), path, g2) == PutGroup(t, path, g2)
    decreases path
  {
    PutGroupAt(t, path, g1);
    if path != [] {
      PutGroupTwice(t[path[0]].children, path[1..], g1, g2);
    }
  }

  /* ---------- the discrepancy in nest_json ---------- */

  /** As written, a missing segment is added but the cursor does not move
      into it, so "a/b" on an empty dictionary gives two top-level entries
      instead of "b" inside "a". */
  /** An empty dictionary for each of `segs`. */
  function FreshGroups(segs: seq<string>): (g: Tree)
    ensures g.Keys == set s | s in segs
    ensures forall s :: s in g ==> g[s] == Group(map[])
  {
    map s | s in segs :: Group(map[])
  }

  /** Segments that are all new and all different are each added as an
      empty dictionary where the cursor starts, and the cursor never moves:
      the rest of the tree is untouched. */
  lemma {:induction false} WalkFreshSegments(t: Tree, p: seq<string>, segs: seq<string>)
    requires GroupAt(t, p).Some?
    requires forall i, j :: 0 <= i < j < |segs| ==> segs[i] != segs[j]
    requires forall i :: 0 <= i < |segs| ==> segs[i] !in GroupAt(t, p).value
    ensures Walk(t, AtGroup(p), segs)
      == WalkOutcome(PutGroup(t, p, GroupAt(t, p).value + FreshGroups(segs)), Ok(AtGroup(p)))
    decreases segs
  {
    var g := GroupAt(t, p).value;
    if segs == [] {
      assert g + FreshGroups(segs) == g;
      PutGroupSame(t, p);
    } else {
      var key := segs[0];
      var g1 := g[key := Group(map[])];
      var t' := PutGroup(t, p, g1);
      PutGroupAt(t, p, g1);
      forall i | 0 <= i < |segs[1..]| ensures segs[1..][i] !in g1 {
        assert segs[1..][i] == segs[i + 1];
      }
      assert Walk(t, AtGroup(p), segs) == Walk(t', AtGroup(p), segs[1..]);
      WalkFreshSegments(t', p, segs[1..]);
      FreshGroupsCons(g, segs);
      PutGroupTwice(t, p, g1, g + FreshGroups(segs));
    }
  }

  lemma FreshGroupsCons(g: Tree, segs: seq<string>)
    requires segs != []
    ensures g[segs[0] := Group(map[])] + FreshGroups(segs[1..]) == g + FreshGroups(segs)
  {
    var a := g[segs[0] := Group(map[])] + FreshGroups(segs[1..]);
    var b := g + FreshGroups(segs);
    assert forall s :: s in segs <==> s == segs[0] || s in segs[1..];
    assert a.Keys == b.Keys;
  }

  /** Segments that already name nested dictionaries are descended into, and
      the tree is left as it is. */
  lemma {:induction false} WalkExistingPath(t: Tree, p: seq<string>, segs: seq<string>)
    requires GroupAt(t, p + segs).Some?
    ensures GroupAt(t, p).Some?
    ensures Walk(t, AtGroup(p), segs) == WalkOutcome(t, Ok(AtGroup(p + segs)))
    decreases segs
  {
    if segs == [] {
      assert p + segs == p;
    } else {
      assert p + segs == (p + [segs[0]]) + segs[1..];
      WalkExistingPath(t, p + [segs[0]], segs[1..]);
      GroupAtPrefix(t, p, segs[0]);
      GroupAtExtend(t, p, segs[0]);
    }
  }

  /** A dictionary one step down exists only below an existing dictionary
      whose entry is itself a dictionary. */
  lemma {:induction false} GroupAtPrefix(t: Tree, p: seq<string>, key: string)
    requires GroupAt(t, p + [key]).Some?
    ensures GroupAt(t, p).Some?
    ensures key in GroupAt(t, p).value && GroupAt(t, p).value[key].Group?
    decreases p
  {
    if p == [] {
      assert p + [key] == [key];
    } else {
      assert (p + [key])[1..] == p[1..] + [key];
      GroupAtPrefix(t[p[0]].children, p[1..], key);
    }
  }

  lemma FreshPathStaysFlat()
    ensures NestJsonSpec(map[], "a/b", map["x" := Int(1)])
         == NestOutcome(map["a" := Group(map[]), "b" := Group(map["x" := Leaf(Int(1))])], Ok(()))
  {
    assert Split("a/b", '/') == ["a", "b"] by {
      SplitTwo();
    }
    var t1: Tree := map["a" := Group(map[])];
    var t2: Tree := t1["b" := Group(map[])];
    assert PutGroup(map[], [], map[]["a" := Group(map[])]) == t1;
    assert Walk(t1, AtGroup([]), ["b"]) == Walk(t2, AtGroup([]), []) by {
      assert ["b"][1..] == [];
      assert PutGroup(t1, [], t1["b" := Group(map[])]) == t2;
    }
    assert Walk(map[], AtGroup([]), ["a", "b"]) == Walk(t1, AtGroup([]), ["b"]) by {
      assert ["a", "b"][1..] == ["b"];
    }
    assert Walk(t2, AtGroup([]), []) == WalkOutcome(t2, Ok(AtGroup([])));
    var attrs := map["x" := Int(1)];
    var leafX := map["x" := Leaf(Int(1))];
    assert AttrsGroup(attrs) == leafX;
    assert GroupAt(t2, []) == Some(t2);
    assert t2["b"].children + leafX == leafX;
    assert WriteAttrs(t2, AtGroup([]), "b", attrs)
        == NestOutcome(PutGroup(t2, [] + ["b"], leafX), Ok(()));
    assert PutGroup(t2, [] + ["b"], leafX) == map["a" := Group(map[]), "b" := Group(leafX)] by {
      assert [] + ["b"] == ["b"];
      assert ["b"][1..] == [];
      assert PutGroup(t2, ["b"], leafX) == t2["b" := Group(PutGroup(map[], [], leafX))];
    }
  }

  /** As written, nesting into a name that already holds a dictionary
      moves the cursor into it and then looks the name up again there, so a
      second object with the same one-segment name raises KeyError and
      leaves the dictionary as it was. */
  lemma ExistingGroupRaisesKeyError(t: Tree, key: string, attrs: map<string, Value>)
    requires '/' !in key
    requires key in t && t[key].Group? && key !in t[key].children
    requires attrs != map[]
    ensures NestJsonSpec(t, key, attrs) == NestOutcome(t, Err(KeyError))
  {
    SplitWithoutSeparator(key, '/');
    assert GroupAt(t, []) == Some(t);
    GroupAtExtend(t, [], key);
    assert [] + [key] == [key];
    assert [key][1..] == [];
    assert Walk(t, AtGroup([]), [key]) == Walk(t, AtGroup([key]), []);
  }

  lemma SplitTwo()
    ensures Split("a/b", '/') == ["a", "b"]
  {
    SplitWithoutSeparator("b", '/');
    assert Split("/b", '/') == ["", "b"] by {
      assert "/b"[1..] == "b";
    }
    assert "a/b"[1..] == "/b";
    assert "a/b"[0] == 'a' && ['a'] + "" == "a";
    assert ["", "b"][1..] == ["b"];
  }

  /** `nest_json` as evidently intended: every segment is created when
      missing and then entered (`d = d.setdefault(key, {})`), and the
      attributes are added to the dictionary the full path names. An
      attribute value on the path cannot be entered (TypeError). */
  function NestIntended(t: Tree, segs: seq<string>, attrs: map<string, Value>): (r: Result<Tree>)
    ensures r.Ok? ==> GroupAt(r.value, segs).Some?
    ensures r.Ok? ==> forall a :: a in attrs ==>
      a in GroupAt(r.value, segs).value && GroupAt(r.value, segs).value[a] == Leaf(attrs[a])
    ensures r.Ok? ==> t.Keys <= r.value.Keys
    ensures GroupAt(t, segs).Some? ==>
      r == Ok(PutGroup(t, segs, GroupAt(t, segs).value + AttrsGroup(attrs)))
    ensures r.Err? ==> r == Err(TypeError)
    decreases segs
  {
    if segs == [] then
      Ok(t + AttrsGroup(attrs))
    else
      var key := segs[0];
      var child := if key in t then t[key] else Group(map[]);
      if child.Leaf? then Err(TypeError)
      else
        var sub := NestIntended(child.children, segs[1..], attrs);
        if sub.Err? then Err(TypeError)
        else
          Ok(t[key := Group(sub.value)])
  }

  /** The intended nesting puts "b" inside "a". */
  lemma FreshPathNestsIntended()
    ensures NestIntended(map[], ["a", "b"], map["x" := Int(1)])
         == Ok(map["a" := Group(map["b" := Group(map["x" := Leaf(Int(1))])])])
  {
    assert ["a", "b"][1..] == ["b"];
    assert ["b"][1..] == [];
    assert AttrsGroup(map["x" := Int(1)]) == map["x" := Leaf(Int(1))];
    assert map[] + map["x" := Leaf(Int(1))] == map["x" := Leaf(Int(1))];
  }
}
