/**
 * What the deep merge promises: each key is merged on its own, scalars are first-writer-wins,
 * objects recurse, lists follow the primitive/non-primitive rule, and merging the same
 * partial structure twice is the same as merging it once unless it holds a list of objects.
 */
module MergeProperties {
  import opened JsonValue
  import opened DictMerge

  /** Splitting a suffix of an object into its first entry and the rest. */
  lemma SuffixGet(src: Fields, i: nat)
    requires i < |src|
    ensures Get(src[i..], src[i].0) == Some(src[i].1)
    ensures forall k :: k != src[i].0 ==> Get(src[i..], k) == Get(src[i + 1..], k)
    ensures KeySet(src[i..]) == {src[i].0} + KeySet(src[i + 1..])
  {
    assert src[i..][0] == src[i];
    assert src[i..][1..] == src[i + 1..];
  }

  /** No key of a suffix of a unique-key object repeats the key of the entry before it. */
  lemma FirstKeyNotLater(src: Fields, i: nat)
    requires i < |src| && UniqueKeys(src)
    ensures src[i].0 !in KeySet(src[i + 1..])
  {
  }

  /** The loop from entry `i` on raises exactly when one of the remaining keys cannot be merged. */
  lemma {:induction false} MergeFieldsOkAt(src: Fields, i: nat, dst: Fields)
    requires i <= |src| && UniqueKeys(src)
    ensures MergeFields(src, i, dst).Ok? <==>
              forall k :: k in KeySet(src[i..]) ==> MergeValue(k, Get(src[i..], k).value, Get(dst, k)).Ok?
    decreases |src| - i
  {
    if i < |src| {
      var k0, v0 := src[i].0, src[i].1;
      SuffixGet(src, i);
      FirstKeyNotLater(src, i);
      match MergeValue(k0, v0, Get(dst, k0))
      case Err(e) =>
        assert k0 in KeySet(src[i..]);
      case Ok(nv) =>
        var dst' := Put(dst, k0, nv);
        PutSpec(dst, k0, nv);
        MergeFieldsOkAt(src, i + 1, dst');
        forall k | k in KeySet(src[i + 1..]) ensures Get(dst', k) == Get(dst, k) && k != k0 { }
    }
  }

  /** When the loop from entry `i` on does not raise, each remaining key takes its merged value. */
  lemma {:induction false} MergeFieldsValueAt(src: Fields, i: nat, dst: Fields)
    requires i <= |src| && UniqueKeys(src)
    requires forall k :: k in KeySet(src[i..]) ==> MergeValue(k, Get(src[i..], k).value, Get(dst, k)).Ok?
    requires MergeFields(src, i, dst).Ok?
    ensures KeySet(MergeFields(src, i, dst).value) == KeySet(dst) + KeySet(src[i..])
    ensures forall k :: Get(MergeFields(src, i, dst).value, k) ==
                        if k in KeySet(src[i..])
                        then Some(MergeValue(k, Get(src[i..], k).value, Get(dst, k)).value)
                        else Get(dst, k)
    decreases |src| - i
  {
    if i < |src| {
      var k0, v0 := src[i].0, src[i].1;
      SuffixGet(src, i);
      FirstKeyNotLater(src, i);
      assert k0 in KeySet(src[i..]);
      var nv := MergeValue(k0, v0, Get(dst, k0)).value;
      var dst' := Put(dst, k0, nv);
      PutSpec(dst, k0, nv);
      assert MergeFields(src, i, dst) == MergeFields(src, i + 1, dst');
      forall k | k in KeySet(src[i + 1..]) ensures Get(dst', k) == Get(dst, k) && k != k0 { }
      MergeFieldsValueAt(src, i + 1, dst');
    }
  }

  /**
   * Merging `src` into `dst`: it raises exactly when some key's value cannot be merged into
   * the destination's value at that key; otherwise every key of either side is kept, keys of
   * `src` take the merged value and all other keys keep the destination's value.
   */
  lemma MergePointwise(src: Fields, dst: Fields)
    requires UniqueKeys(src)
    ensures Merge(src, dst).Ok? <==>
              forall k :: k in KeySet(src) ==> MergeValue(k, Get(src, k).value, Get(dst, k)).Ok?
    ensures Merge(src, dst).Ok? ==> KeySet(Merge(src, dst).value) == KeySet(dst) + KeySet(src)
    ensures Merge(src, dst).Ok? ==>
              forall k :: Get(Merge(src, dst).value, k) ==
                          if k in KeySet(src)
                          then Some(MergeValue(k, Get(src, k).value, Get(dst, k)).value)
                          else Get(dst, k)
  {
    assert src[0..] == src;
    MergeFieldsOkAt(src, 0, dst);
    if Merge(src, dst).Ok? {
      MergeFieldsValueAt(src, 0, dst);
    }
  }

  /**
   * A scalar or null never overwrites: the earliest value reported for a key wins, even
   * when that value is null, and a scalar entry never makes the merge raise.
   */
  lemma ScalarFirstWriterWins(src: Fields, dst: Fields, k: string)
    requires UniqueKeys(src) && k in KeySet(src) && IsScalar(Get(src, k).value)
    requires Merge(src, dst).Ok?
    ensures Get(Merge(src, dst).value, k) == if k in KeySet(dst) then Get(dst, k) else Get(src, k)
  {
    MergePointwise(src, dst);
  }

  /**
   * A nested object is merged recursively into the destination's object at that key, which
   * is taken as empty when the key is absent. When the destination holds a non-object there,
   * the merge raises unless every nested entry is a scalar whose key is `in` that value, and
   * then that value is left as it was; in particular an empty object never raises, and a
   * non-empty object raises against null, a bool or an int.
   */
  lemma ObjectMergedRecursively(src: Fields, dst: Fields, k: string, f: Fields)
    requires UniqueKeys(src) && Get(src, k) == Some(JObj(f))
    ensures Get(dst, k).None? && Merge(src, dst).Ok? ==>
              Merge(f, []).Ok? && Get(Merge(src, dst).value, k) == Some(JObj(Merge(f, []).value))
    ensures (Get(dst, k).Some? && Get(dst, k).value.JObj?) && Merge(src, dst).Ok? ==>
              var g := Get(dst, k).value.fields;
              Merge(f, g).Ok? && Get(Merge(src, dst).value, k) == Some(JObj(Merge(f, g).value))
    ensures (Get(dst, k).Some? && !Get(dst, k).value.JObj?) ==>
              (Merge(src, dst).Ok? <==>
                 MergesIntoNonDict(f, Get(dst, k).value) &&
                 forall k' :: k' in KeySet(src) && k' != k ==>
                   MergeValue(k', Get(src, k').value, Get(dst, k')).Ok?)
    ensures (Get(dst, k).Some? && !Get(dst, k).value.JObj?) && Merge(src, dst).Ok? ==>
              Get(Merge(src, dst).value, k) == Get(dst, k)
    ensures (Get(dst, k).Some? && Get(dst, k).value in {JNull, JBool(false), JBool(true)} && f != []) ==>
              Merge(src, dst).Err?
    ensures (Get(dst, k).Some? && Get(dst, k).value.JInt? && f != []) ==> Merge(src, dst).Err?
  {
    MergePointwise(src, dst);
    if Get(dst, k).Some? && !Get(dst, k).value.JObj? && f != [] {
      assert !KeyIn(f[0].0, Get(dst, k).value) || Get(dst, k).value.JStr? || Get(dst, k).value.JList?;
    }
  }

  /**
   * A list resets a non-list destination value to `[]`. An all-primitive list (an empty one
   * included) appends, in order, the items not in the destination list as it was before the
   * call; any other list is appended whole, with no deduplication. Lists never raise.
   */
  lemma ListMerge(src: Fields, dst: Fields, k: string, items: seq<Json>)
    requires UniqueKeys(src) && Get(src, k) == Some(JList(items))
    requires Merge(src, dst).Ok?
    ensures var base := if Get(dst, k).Some? && Get(dst, k).value.JList? then Get(dst, k).value.items else [];
            Get(Merge(src, dst).value, k) ==
              Some(JList(base + if AllPrimitive(items) then Unseen(items, base) else items))
  {
    MergePointwise(src, dst);
  }

  /** No list reachable through objects holds a non-primitive (object, list or null) item. */
  ghost predicate NoObjectLists(v: Json)
  {
    match v
    case JObj(f) => forall i :: 0 <= i < |f| ==> NoObjectLists(f[i].1)
    case JList(items) => AllPrimitive(items)
    case _ => true
  }

  /** A loop over entries that each merge into exactly what is already there writes nothing. */
  lemma {:induction false} MergeFieldsStable(p: Fields, i: nat, r: Fields)
    requires i <= |p|
    requires forall j :: i <= j < |p| ==>
               Get(r, p[j].0).Some? && MergeValue(p[j].0, p[j].1, Get(r, p[j].0)) == Ok(Get(r, p[j].0).value)
    ensures MergeFields(p, i, r) == Ok(r)
    decreases |p| - i
  {
    if i < |p| {
      var k := p[i].0;
      assert MergeValue(k, p[i].1, Get(r, k)) == Ok(Get(r, k).value);
      PutSpec(r, k, Get(r, k).value);
      MergeFieldsStable(p, i + 1, r);
    }
  }

  /** Merging a value into the result of merging it changes nothing. */
  lemma {:induction false} MergeValueTwice(k: string, v: Json, d: Option<Json>)
    requires WellFormed(v) && NoObjectLists(v) && MergeValue(k, v, d).Ok?
    ensures MergeValue(k, v, Some(MergeValue(k, v, d).value)) == MergeValue(k, v, d)
    decreases v, 1
  {
    match v
    case JObj(f) =>
      match d {
        case None =>
          MergeTwiceIsOnce(f, []);
        case Some(node) =>
          if node.JObj? {
            MergeTwiceIsOnce(f, node.fields);
          }
      }
    case JList(items) =>
      var base := if d.Some? && d.value.JList? then d.value.items else [];
      var merged := base + Unseen(items, base);
      assert forall x :: x in items ==> x in merged;
      assert merged + [] == merged;
    case _ =>
  }

  /**
   * Idempotence: when `p` holds no list of non-primitive items at any depth and merging it
   * into `d` does not raise, merging `p` again into the result leaves it unchanged.
   */
  lemma {:induction false} MergeTwiceIsOnce(p: Fields, d: Fields)
    requires WellFormed(JObj(p)) && NoObjectLists(JObj(p)) && Merge(p, d).Ok?
    ensures Merge(p, Merge(p, d).value) == Merge(p, d)
    decreases JObj(p), 0
  {
    var r := Merge(p, d).value;
    MergePointwise(p, d);
    forall j | 0 <= j < |p|
      ensures Get(r, p[j].0).Some? && MergeValue(p[j].0, p[j].1, Get(r, p[j].0)) == Ok(Get(r, p[j].0).value)
    {
      var k := p[j].0;
      GetInUnique(p, j);
      assert k in KeySet(p);
      assert Get(r, k) == Some(MergeValue(k, p[j].1, Get(d, k)).value);
      MergeValueTwice(k, p[j].1, Get(d, k));
    }
    MergeFieldsStable(p, 0, r);
  }

  /** With a list of objects the second merge duplicates the entries: idempotence needs its premise. */
  lemma ObjectListsDuplicate()
    ensures var work := JObj([("name", JStr("A"))]);
            var p := [("work", JList([work]))];
            Merge(p, []) == Ok(p) &&
            Merge(p, p) == Ok([("work", JList([work, work]))])
  {
    var work := JObj([("name", JStr("A"))]);
    var items := [work];
    var p := [("work", JList(items))];
    assert !AllPrimitive(items) by { assert !IsPrimitive(items[0]); }
    assert [] + items == items;
    assert MergeValue("work", JList(items), None) == Ok(JList(items));
    assert MergeFields(p, 1, p) == Ok(p);
    assert Merge(p, []) == Ok(p);
    assert items + items == [work, work];
    assert MergeValue("work", JList(items), Some(JList(items))) == Ok(JList([work, work]));
    assert Get(p, "work") == Some(JList(items));
    var q := [("work", JList([work, work]))];
    assert Put(p, "work", JList([work, work])) == q;
    assert MergeFields(p, 1, q) == Ok(q);
  }

  /** `{a: 1}` merged with `{a: 2}` stays `{a: 1}`. */
  lemma ExampleScalarKept()
    ensures Merge([("a", JInt(2))], [("a", JInt(1))]) == Ok([("a", JInt(1))])
  {
    PutSpec([("a", JInt(1))], "a", JInt(1));
  }

  /** `{tags: ["x"]}` merged with `{tags: ["x", "y"]}` gives `{tags: ["x", "y"]}`. */
  lemma ExamplePrimitiveListDeduplicated()
    ensures Merge([("tags", JList([JStr("x"), JStr("y")]))], [("tags", JList([JStr("x")]))])
            == Ok([("tags", JList([JStr("x"), JStr("y")]))])
  {
    var x, y := JStr("x"), JStr("y");
    var items := [x, y];
    assert AllPrimitive(items) by { assert IsPrimitive(items[0]) && IsPrimitive(items[1]); }
    assert Unseen([y], [x]) == [y] by { assert [y][1..] == []; }
    assert Unseen(items, [x]) == [y] by { assert items[1..] == [y]; }
    assert [x] + [y] == items;
    assert MergeValue("tags", JList(items), Some(JList([x]))) == Ok(JList(items));
    var src, dst := [("tags", JList(items))], [("tags", JList([x]))];
    assert Get(dst, "tags") == Some(JList([x]));
    assert Put(dst, "tags", JList(items)) == src;
    assert MergeFields(src, 1, src) == Ok(src);
  }
}
