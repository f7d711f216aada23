/**
 * The destination-biased deep merge `_deep_merge_dicts(source, destination)` that folds
 * each chunk's partial extraction into the running accumulator.
 *
 * Per key of `source`, in order:
 *  - an object merges recursively into the object stored at that key (an empty one when
 *    the key is absent); when the destination holds something other than an object there,
 *    Python's duck typing decides: see `MergesIntoNonDict`;
 *  - a list resets a non-list destination to `[]`; an all-primitive list appends only the
 *    items not in the destination list as it stood before the call; any other list is
 *    appended whole;
 *  - a scalar or null is written only when the key is absent.
 */
module DictMerge {
  import opened JsonValue
  import opened Text

  /** The TypeError/AttributeError Python raises when merging into a value that is not a dict. */
  datatype MergeError = NotADict(key: string)

  /** A scalar or null, the last branch of the merge. */
  predicate IsScalar(v: Json)
  {
    !v.JObj? && !v.JList?
  }

  /**
   * `key not in node` for a node that is not a dict: a substring test on a string, a
   * membership test on a list; on null, a bool or an int it raises TypeError.
   */
  predicate KeyIn(key: string, node: Json)
  {
    match node
    case JStr(s) => IsSubstring(key, s)
    case JList(items) => JStr(key) in items
    case _ => false
  }

  /**
   * Whether `_deep_merge_dicts(source, node)` returns without raising when `node` is not a
   * dict. An object or list entry always raises (`node.setdefault`, `node[key] = []` or
   * `node.get`); a scalar entry raises unless `key in node` holds, in which case it is
   * skipped. Nothing is ever written into `node`.
   */
  predicate MergesIntoNonDict(source: Fields, node: Json)
  {
    forall i :: 0 <= i < |source| ==> IsScalar(source[i].1) && KeyIn(source[i].0, node)
  }

  /** `[v for v in items if v not in base]`. */
  function Unseen(items: seq<Json>, base: seq<Json>): (r: seq<Json>)
    ensures forall x :: x in r <==> x in items && x !in base
    ensures |r| <= |items|
    ensures AllPrimitive(items) ==> AllPrimitive(r)
    ensures (forall x :: x in items ==> x in base) ==> r == []
  {
    if items == [] then []
    else
      var rest := Unseen(items[1..], base);
      assert forall x :: x in items <==> x == items[0] || x in items[1..];
      if items[0] in base then rest else [items[0]] + rest
  }

  /**
   * How often each item is appended: never when it is already in the base list, otherwise as
   * often as it occurs in the incoming list, so incoming duplicates survive.
   */
  lemma {:induction false} UnseenCounts(items: seq<Json>, base: seq<Json>)
    ensures forall x :: multiset(Unseen(items, base))[x] == if x in base then 0 else multiset(items)[x]
  {
    if items != [] {
      UnseenCounts(items[1..], base);
      assert items == [items[0]] + items[1..];
    }
  }

  /** `r` is `s` with some items dropped and the rest kept in their order. */
  predicate Subsequence(r: seq<Json>, s: seq<Json>)
    decreases |s|
  {
    r == [] || (s != [] && ((r[0] == s[0] && Subsequence(r[1..], s[1..])) || Subsequence(r, s[1..])))
  }

  /** The appended items keep the order they have in the incoming list. */
  lemma {:induction false} UnseenKeepsOrder(items: seq<Json>, base: seq<Json>)
    ensures Subsequence(Unseen(items, base), items)
  {
    if items != [] {
      UnseenKeepsOrder(items[1..], base);
      var rest := Unseen(items[1..], base);
      if items[0] !in base {
        var r := [items[0]] + rest;
        assert r[0] == items[0] && r[1..] == rest;
      }
    }
  }

  /** The value `key` holds after merging incoming value `v` into destination value `d` (None: absent). */
  function MergeValue(key: string, v: Json, d: Option<Json>): Result<Json, MergeError>
    decreases v, 1, 0
  {
    match v
    case JObj(f) =>
      (match d
       case None => MergeObject(f, [])
       case Some(JObj(g)) => MergeObject(f, g)
       case Some(node) => if MergesIntoNonDict(f, node) then Ok(node) else Err(NotADict(key)))
    case JList(items) =>
      var base := if d.Some? && d.value.JList? then d.value.items else [];
      Ok(JList(base + if AllPrimitive(items) then Unseen(items, base) else items))
    case _ =>
      if d.Some? then Ok(d.value) else Ok(v)
  }

  function MergeObject(f: Fields, g: Fields): Result<Json, MergeError>
    decreases JObj(f), 0, |f| + 1
  {
    match MergeFields(f, 0, g)
    case Ok(r) => Ok(JObj(r))
    case Err(e) => Err(e)
  }

  /** The loop of `_deep_merge_dicts` from entry `i` of `src` on, with destination `dst` so far. */
  function MergeFields(src: Fields, i: nat, dst: Fields): Result<Fields, MergeError>
    requires i <= |src|
    decreases JObj(src), 0, |src| - i
  {
    if i == |src| then Ok(dst)
    else
      match MergeValue(src[i].0, src[i].1, Get(dst, src[i].0))
      case Err(e) => Err(e)
      case Ok(nv) => MergeFields(src, i + 1, Put(dst, src[i].0, nv))
  }

  /** `_deep_merge_dicts(source, destination)`: the destination after the merge, or the error raised. */
  function Merge(source: Fields, destination: Fields): Result<Fields, MergeError>
  {
    MergeFields(source, 0, destination)
  }

  /**
   * The merge as the source runs it: a loop over the entries of `source` that updates the
   * destination, recursing into nested objects.
   */
  method DeepMergeDicts(source: Fields, destination: Fields) returns (r: Result<Fields, MergeError>)
    ensures r == Merge(source, destination)
    decreases JObj(source), 0
  {
    var dest := destination;
    var i := 0;
    while i < |source|
      invariant i <= |source|
      invariant MergeFields(source, i, dest) == Merge(source, destination)
    {
      var (key, value) := source[i];
      var step := MergeEntry(key, value, dest);
      if step.Err? {
        return Err(step.error);
      }
      dest := step.value;
      i := i + 1;
    }
    r := Ok(dest);
  }

  /** One iteration of the loop of `DeepMergeDicts`: the branch on the incoming value's type. */
  method MergeEntry(key: string, value: Json, dest: Fields) returns (r: Result<Fields, MergeError>)
    ensures r == match MergeValue(key, value, Get(dest, key))
                 case Ok(nv) => Ok(Put(dest, key, nv))
                 case Err(e) => Err(e)
    decreases value, 1
  {
    var node := Get(dest, key);
    match value {
      case JObj(f) =>
        if node.None? || node.value.JObj? {
          var inner := if node.None? then [] else node.value.fields;
          var sub := DeepMergeDicts(f, inner);
          if sub.Err? {
            return Err(sub.error);
          }
          r := Ok(Put(dest, key, JObj(sub.value)));
        } else {
          var ok := MergeIntoNonDict(f, node.value);
          if !ok {
            return Err(NotADict(key));
          }
          PutSpec(dest, key, node.value);
          r := Ok(dest);
        }
      case JList(items) =>
        var base := if node.Some? && node.value.JList? then node.value.items else [];
        if AllPrimitive(items) {
          r := Ok(Put(dest, key, JList(base + Unseen(items, base))));
        } else {
          r := Ok(Put(dest, key, JList(base + items)));
        }
      case _ =>
        if node.None? {
          r := Ok(Put(dest, key, value));
        } else {
          PutSpec(dest, key, node.value);
          r := Ok(dest);
        }
    }
  }

  /** The same loop run with a destination that is not a dict: it succeeds only by skipping. */
  method MergeIntoNonDict(source: Fields, node: Json) returns (ok: bool)
    requires !node.JObj?
    ensures ok == MergesIntoNonDict(source, node)
  {
    var i := 0;
    while i < |source|
      invariant i <= |source|
      invariant forall j :: 0 <= j < i ==> IsScalar(source[j].1) && KeyIn(source[j].0, node)
    {
      var (key, value) := source[i];
      if !IsScalar(value) || !KeyIn(key, node) {
        return false;
      }
      i := i + 1;
    }
    return true;
  }
}
