/** Writes through dotted paths (`'social_links.email'`) into nested objects, as the resume
    field mapper performs them: the path is split on '.', every key but the last walks one
    object deeper — creating `{}` where the value is missing, falsy, an array or not an
    object — and the last key, when non-empty, receives the value. */
module FieldPaths {
  import opened Base
  import opened Strings
  import opened Json

  /** The object the cursor moves into under `key`: the existing one, or a fresh `{}`. */
  function ChildObject(cur: Value, key: string): (r: Value)
    ensures r.Obj?
    ensures Get(cur, key).Obj? ==> r == Get(cur, key)
    ensures !Get(cur, key).Obj? ==> r == Obj(map[])
  {
    var c := Get(cur, key);
    if c.Obj? then c else Obj(map[])
  }

  /** The write of `v` along `keys` into the object `cur`. With `skipEmpty` an empty
      intermediate key is passed over (the cursor stays where it is); without it the empty
      key is used like any other. An empty last key writes nothing, although the objects on
      the way have been created. */
  function SetPath(cur: Value, keys: seq<string>, v: Value, skipEmpty: bool): (r: Value)
    requires |keys| >= 1
    ensures cur.Obj? ==> r.Obj?
    decreases |keys|
  {
    if |keys| == 1 then
      if keys[0] != "" then Set(cur, keys[0], v) else cur
    else if skipEmpty && keys[0] == "" then
      SetPath(cur, keys[1..], v, skipEmpty)
    else
      Set(cur, keys[0], SetPath(ChildObject(cur, keys[0]), keys[1..], v, skipEmpty))
  }

  /** The top-level key a write along `keys` touches, if any. */
  function TopKey(keys: seq<string>, skipEmpty: bool): Option<string>
    requires |keys| >= 1
    decreases |keys|
  {
    if |keys| == 1 then
      if keys[0] != "" then Some(keys[0]) else None
    else if skipEmpty && keys[0] == "" then TopKey(keys[1..], skipEmpty)
    else Some(keys[0])
  }

  /** `v.k1.k2….kn`, `undefined` as soon as a step finds no object. */
  function GetPath(v: Value, keys: seq<string>): Value
    decreases |keys|
  {
    if |keys| == 0 then v else GetPath(Get(v, keys[0]), keys[1..])
  }

  /** The keys of a write whose every key is used: none skipped, the last one non-empty. */
  predicate Reachable(keys: seq<string>, skipEmpty: bool) {
    |keys| >= 1 && keys[|keys| - 1] != ""
    && (skipEmpty ==> forall i :: 0 <= i < |keys| ==> keys[i] != "")
  }

  /** Reading back along the path gives the value written. */
  lemma {:induction false} SetThenGet(cur: Value, keys: seq<string>, v: Value, skipEmpty: bool)
    requires Reachable(keys, skipEmpty)
    ensures GetPath(SetPath(cur, keys, v, skipEmpty), keys) == v
    decreases |keys|
  {
    if |keys| > 1 {
      assert Reachable(keys[1..], skipEmpty) by {
        assert keys[1..][|keys[1..]| - 1] == keys[|keys| - 1];
      }
      SetThenGet(ChildObject(cur, keys[0]), keys[1..], v, skipEmpty);
    } else {
      assert keys[1..] == [];
    }
  }

  /** A write changes only the top-level key it touches: every other key keeps its value. */
  lemma {:induction false} SetPathFrame(cur: Value, keys: seq<string>, v: Value, skipEmpty: bool, k: string)
    requires |keys| >= 1 && cur.Obj?
    requires TopKey(keys, skipEmpty) != Some(k)
    ensures Get(SetPath(cur, keys, v, skipEmpty), k) == Get(cur, k)
    ensures Has(SetPath(cur, keys, v, skipEmpty), k) <==> Has(cur, k)
    decreases |keys|
  {
    if |keys| > 1 && skipEmpty && keys[0] == "" {
      SetPathFrame(cur, keys[1..], v, skipEmpty, k);
    }
  }

  /** The touched key holds an object after a write that goes deeper. */
  lemma DeepWriteLeavesObject(cur: Value, keys: seq<string>, v: Value, skipEmpty: bool)
    requires |keys| >= 2 && keys[0] != ""
    ensures Get(SetPath(cur, keys, v, skipEmpty), keys[0]).Obj?
  {
  }

  /** A single dot-free field name is one key. */
  lemma {:induction false} SplitPlainField(s: string)
    requires '.' !in s
    ensures Split(s, '.') == [s]
    decreases |s|
  {
    if |s| > 0 {
      SplitPlainField(s[1..]);
      assert [s[0]] + s[1..] == s;
    }
  }

  /** `parent.child` is the two keys `parent` and `child`. */
  lemma SplitDottedField(parent: string, child: string)
    requires '.' !in parent && '.' !in child
    ensures Split(parent + "." + child, '.') == [parent, child]
  {
    SplitPlainField(child);
    SplitPrefix(parent, "." + child, '.');
    assert ("." + child)[1..] == child;
    assert Split("." + child, '.') == [""] + Split(child, '.');
    assert parent + "." + child == parent + ("." + child);
    assert parent + "" == parent;
  }
}
