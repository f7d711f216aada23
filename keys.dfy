/**
 * Rendering of key sets in the extraction prompt: `", ".join(sorted(list(keys)))`, with
 * the covered keys shown as "None" when that text is empty, and the missing keys computed
 * as the schema's field names minus the covered ones.
 */
module KeyLists {

  /** Python's `a < b` on `str`: code points compared left to right, a proper prefix first. */
  predicate Less(a: string, b: string)
  {
    if a == [] then b != []
    else if b == [] then false
    else if a[0] != b[0] then a[0] < b[0]
    else Less(a[1..], b[1..])
  }

  lemma {:induction false} LessIrreflexive(a: string)
    ensures !Less(a, a)
  {
    if a != [] {
      LessIrreflexive(a[1..]);
    }
  }

  lemma {:induction false} LessTransitive(a: string, b: string, c: string)
    requires Less(a, b) && Less(b, c)
    ensures Less(a, c)
  {
    if a != [] && b != [] && c != [] && a[0] == b[0] && b[0] == c[0] {
      LessTransitive(a[1..], b[1..], c[1..]);
    }
  }

  lemma {:induction false} LessTotal(a: string, b: string)
    requires a != b
    ensures Less(a, b) != Less(b, a)
  {
    if a != [] && b != [] && a[0] == b[0] {
      assert a == [a[0]] + a[1..] && b == [b[0]] + b[1..];
      LessTotal(a[1..], b[1..]);
    }
  }

  /** The least element of a set: `sorted` puts it first. */
  predicate IsLeast(m: string, keys: set<string>)
  {
    m in keys && forall x :: x in keys ==> !Less(x, m)
  }

  lemma {:induction false} LeastExists(keys: set<string>)
    requires keys != {}
    ensures exists m :: IsLeast(m, keys)
    decreases keys
  {
    var y :| y in keys;
    if keys != {y} {
      LeastExists(keys - {y});
      var m :| IsLeast(m, keys - {y});
      if Less(y, m) {
        LessIrreflexive(y);
        forall x | x in keys ensures !Less(x, y) {
          if x != y && Less(x, y) {
            LessTransitive(x, y, m);
          }
        }
        assert IsLeast(y, keys);
      } else {
        forall x | x in keys ensures !Less(x, m) {
          if x == y { } else { }
        }
        assert IsLeast(m, keys);
      }
    } else {
      LessIrreflexive(y);
      assert IsLeast(y, keys);
    }
  }

  lemma LeastUnique(keys: set<string>)
    ensures forall m, m' :: IsLeast(m, keys) && IsLeast(m', keys) ==> m == m'
  {
    forall m, m' | IsLeast(m, keys) && IsLeast(m', keys) ensures m == m' {
      if m != m' {
        LessTotal(m, m');
      }
    }
  }

  /** The least key is below every other key. */
  lemma LeastBelowOthers(m: string, keys: set<string>)
    requires IsLeast(m, keys)
    ensures forall x :: x in keys && x != m ==> Less(m, x)
  {
    forall x | x in keys && x != m ensures Less(m, x) {
      LessTotal(m, x);
    }
  }

  predicate StrictlySorted(s: seq<string>)
  {
    forall i, j :: 0 <= i < j < |s| ==> Less(s[i], s[j])
  }

  /** `sorted(list(keys))`: the least key first, then the rest in order. */
  function Sorted(keys: set<string>): seq<string>
    decreases keys
  {
    if keys == {} then []
    else
      LeastExists(keys);
      LeastUnique(keys);
      var m :| IsLeast(m, keys);
      [m] + Sorted(keys - {m})
  }

  /** The sorted listing is strictly ascending and holds exactly the keys, each once. */
  lemma {:induction false} SortedSpec(keys: set<string>)
    ensures StrictlySorted(Sorted(keys))
    ensures forall x :: x in Sorted(keys) <==> x in keys
    ensures |Sorted(keys)| == |keys|
    decreases keys
  {
    if keys != {} {
      LeastExists(keys);
      LeastUnique(keys);
      var m :| IsLeast(m, keys);
      assert Sorted(keys) == [m] + Sorted(keys - {m});
      SortedSpec(keys - {m});
      LeastBelowOthers(m, keys);
    }
  }

  /** The head of a strictly ascending listing of a set is its least element. */
  lemma FirstIsLeast(s: seq<string>, keys: set<string>)
    requires s != [] && StrictlySorted(s) && forall x :: x in s <==> x in keys
    ensures IsLeast(s[0], keys)
  {
    LessIrreflexive(s[0]);
    forall x | x in keys ensures !Less(x, s[0]) {
      var i :| 0 <= i < |s| && s[i] == x;
      if i > 0 {
        LessTotal(s[0], s[i]);
      }
    }
  }

  /** `sorted` is determined: the only strictly ascending listing of a set is `Sorted`. */
  lemma {:induction false} SortedUnique(s: seq<string>, keys: set<string>)
    requires StrictlySorted(s) && forall x :: x in s <==> x in keys
    ensures s == Sorted(keys)
    decreases |s|
  {
    if s == [] {
      assert keys == {};
    } else {
      var r := Sorted(keys);
      SortedSpec(keys);
      assert s[0] in keys;
      FirstIsLeast(s, keys);
      FirstIsLeast(r, keys);
      LeastUnique(keys);
      assert r == [s[0]] + Sorted(keys - {s[0]});
      forall x ensures x in s[1..] <==> x in keys - {s[0]} {
        if x in s[1..] {
          var i :| 1 <= i < |s| && s[i] == x;
          assert Less(s[0], s[i]);
          LessIrreflexive(x);
        }
      }
      SortedUnique(s[1..], keys - {s[0]});
    }
  }

  /** `sep.join(xs)`. */
  function Join(xs: seq<string>, sep: string): string
  {
    if xs == [] then ""
    else if |xs| == 1 then xs[0]
    else xs[0] + sep + Join(xs[1..], sep)
  }

  /** The `extracted_keys` prompt variable. */
  function CoveredText(covered: set<string>): string
  {
    var joined := Join(Sorted(covered), ", ");
    if joined == "" then "None" else joined
  }

  /**
   * The covered keys read "None" exactly when none has been found, when the only one is the
   * empty key, or when the only one is the key "None" itself.
   */
  lemma CoveredTextNone(covered: set<string>)
    ensures CoveredText(covered) == "None" <==> covered == {} || covered == {""} || covered == {"None"}
  {
    var xs := Sorted(covered);
    SortedSpec(covered);
    if |xs| == 1 {
      assert forall x :: x in covered <==> x == xs[0];
    } else if |xs| >= 2 {
      var joined := Join(xs, ", ");
      assert joined == xs[0] + ", " + Join(xs[1..], ", ");
      assert joined[|xs[0]|] == ',';
      assert "None" != joined by {
        if |joined| == 4 {
          assert forall i :: 0 <= i < 4 ==> "None"[i] != ',';
        }
      }
      assert xs[0] != xs[1] by { LessIrreflexive(xs[0]); assert Less(xs[0], xs[1]); }
      assert xs[0] in covered && xs[1] in covered;
    }
  }

  /** The `missing_keys` prompt variable: the schema's field names no chunk has supplied yet. */
  function MissingText(fieldNames: set<string>, covered: set<string>): string
  {
    Join(Sorted(fieldNames - covered), ", ")
  }
}
