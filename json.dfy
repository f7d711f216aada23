/**
 * Loosely-typed JSON values as the extraction pipeline sees them after `json.loads`:
 * null, booleans, integers, strings, lists and objects. An object is an
 * insertion-ordered sequence of key/value pairs, like a Python `dict`.
 */
module JsonValue {

  datatype Option<+T> = None | Some(value: T)

  /** Either a value or an error, the shape of every operation that can raise. */
  datatype Result<+T, +E> = Ok(value: T) | Err(error: E)

  /**
   * The three ways a pydantic `model_validate` call can end: a validated value, a
   * `ValidationError` carrying its error list, or an exception that is not a validation error
   * (a `TypeError` raised inside a validator) and escapes as it is.
   */
  datatype Outcome<+T> = Valid(value: T) | Invalid(errors: seq<string>) | Raised
  {
    /** The same ending with the value dropped. */
    function Erase(): Outcome<()>
    {
      match this
      case Valid(_) => Valid(())
      case Invalid(e) => Invalid(e)
      case Raised => Raised
    }

    /** The error list, empty unless this is a validation error. */
    function Errors(): seq<string>
    {
      if Invalid? then errors else []
    }
  }

  /**
   * How pydantic ends the validation of a record when not every field in `parts` validated: an
   * escaping exception wins, otherwise the errors of all failed fields are reported together.
   */
  function Failed<T>(parts: seq<Outcome<()>>): (r: Outcome<T>)
    ensures r.Raised? <==> exists i :: 0 <= i < |parts| && parts[i].Raised?
  {
    if parts == [] then Invalid([])
    else
      var rest: Outcome<T> := Failed(parts[1..]);
      assert forall i :: 0 < i < |parts| ==> parts[i] == parts[1..][i - 1];
      if parts[0].Raised? || rest.Raised? then Raised
      else Invalid(parts[0].Errors() + rest.Errors())
  }

  datatype Json =
    | JNull
    | JBool(b: bool)
    | JInt(n: int)
    | JStr(s: string)
    | JList(items: seq<Json>)
    | JObj(fields: Fields)

  type Fields = seq<(string, Json)>

  /** The set of keys of an object (or of any Python dict). */
  function KeySet<V>(o: seq<(string, V)>): (r: set<string>)
    ensures forall k :: k in r <==> exists i :: 0 <= i < |o| && o[i].0 == k
  {
    if o == [] then {}
    else
      var r := {o[0].0} + KeySet(o[1..]);
      assert forall i :: 0 < i < |o| ==> o[i] == o[1..][i - 1];
      r
  }

  /** Python dicts never repeat a key. */
  predicate UniqueKeys<V>(o: seq<(string, V)>)
  {
    forall i, j :: 0 <= i < j < |o| ==> o[i].0 != o[j].0
  }

  /** Every object at every depth has unique keys: what `json.loads` produces. */
  predicate WellFormed(j: Json)
  {
    match j
    case JList(items) => forall i :: 0 <= i < |items| ==> WellFormed(items[i])
    case JObj(f) => UniqueKeys(f) && forall i :: 0 <= i < |f| ==> WellFormed(f[i].1)
    case _ => true
  }

  /** `d.get(k)`: the value stored under `k`, if any. */
  function Get<V>(o: seq<(string, V)>, k: string): (r: Option<V>)
    ensures r.Some? <==> k in KeySet(o)
    ensures r.Some? ==> exists i :: 0 <= i < |o| && o[i] == (k, r.value)
  {
    if o == [] then None
    else if o[0].0 == k then Some(o[0].1)
    else
      var r := Get(o[1..], k);
      assert r.Some? ==> exists i :: 0 <= i < |o[1..]| && o[1..][i] == (k, r.value);
      r
  }

  /** `d[k] = v`: overwrite the entry in place, or append a new one at the end. */
  function Put<V>(o: seq<(string, V)>, k: string, v: V): seq<(string, V)>
  {
    if o == [] then [(k, v)]
    else if o[0].0 == k then [(k, v)] + o[1..]
    else [o[0]] + Put(o[1..], k, v)
  }

  /**
   * After `d[k] = v`, `k` holds `v` and every other key what it held before; the keys grow by
   * `k` alone, and storing the value a key already holds changes nothing.
   */
  lemma {:induction false} PutSpec<V>(o: seq<(string, V)>, k: string, v: V)
    ensures Get(Put(o, k, v), k) == Some(v)
    ensures forall k' :: k' != k ==> Get(Put(o, k, v), k') == Get(o, k')
    ensures KeySet(Put(o, k, v)) == KeySet(o) + {k}
    ensures Get(o, k) == Some(v) ==> Put(o, k, v) == o
  {
    if o != [] && o[0].0 != k {
      var r := Put(o, k, v);
      PutSpec(o[1..], k, v);
      assert r[1..] == Put(o[1..], k, v);
    }
  }

  /** Putting an entry in front of a unique-key object whose keys do not include its own. */
  lemma ConsUnique<V>(x: (string, V), tail: seq<(string, V)>)
    requires UniqueKeys(tail) && x.0 !in KeySet(tail)
    ensures UniqueKeys([x] + tail)
  {
    var r := [x] + tail;
    forall i, j | 0 <= i < j < |r| ensures r[i].0 != r[j].0 {
      assert r[j] == tail[j - 1];
      if i > 0 {
        assert r[i] == tail[i - 1];
      } else {
        assert tail[j - 1].0 in KeySet(tail);
      }
    }
  }

  /** The first key of a unique-key object does not come again, and the rest has unique keys. */
  lemma HeadNotInRest<V>(o: seq<(string, V)>)
    requires o != [] && UniqueKeys(o)
    ensures o[0].0 !in KeySet(o[1..]) && UniqueKeys(o[1..])
  {
  }

  /** `d[k] = v` keeps the keys unique. */
  lemma {:induction false} PutKeepsUnique<V>(o: seq<(string, V)>, k: string, v: V)
    requires UniqueKeys(o)
    ensures UniqueKeys(Put(o, k, v))
  {
    if o != [] {
      HeadNotInRest(o);
      if o[0].0 == k {
        ConsUnique((k, v), o[1..]);
      } else {
        var tail := Put(o[1..], k, v);
        PutKeepsUnique(o[1..], k, v);
        PutSpec(o[1..], k, v);
        ConsUnique(o[0], tail);
      }
    }
  }

  /** Keys whose value is not `None`: `{k for k, v in d.items() if v is not None}`. */
  function NonNullKeys(o: Fields): (r: set<string>)
    ensures forall k :: k in r <==> exists i :: 0 <= i < |o| && o[i].0 == k && o[i].1 != JNull
  {
    set i | 0 <= i < |o| && o[i].1 != JNull :: o[i].0
  }

  /** In a dict, a key is non-null exactly when looking it up finds a value other than `None`. */
  lemma NonNullKeysByLookup(o: Fields, k: string)
    requires UniqueKeys(o)
    ensures k in NonNullKeys(o) <==> Get(o, k).Some? && Get(o, k).value != JNull
  {
    if k in NonNullKeys(o) {
      var i :| 0 <= i < |o| && o[i].0 == k && o[i].1 != JNull;
      GetInUnique(o, i);
    }
    if Get(o, k).Some? && Get(o, k).value != JNull {
      var i :| 0 <= i < |o| && o[i] == (k, Get(o, k).value);
    }
  }

  /** Python truthiness of a parsed value (`if partial_data:`). */
  predicate Truthy(j: Json)
  {
    match j
    case JNull => false
    case JBool(b) => b
    case JInt(n) => n != 0
    case JStr(s) => s != ""
    case JList(items) => items != []
    case JObj(f) => f != []
  }

  /** `isinstance(item, (str, int, float))`; a Python bool is an int. */
  predicate IsPrimitive(j: Json)
  {
    j.JStr? || j.JInt? || j.JBool?
  }

  predicate AllPrimitive(items: seq<Json>)
  {
    forall i :: 0 <= i < |items| ==> IsPrimitive(items[i])
  }

  /** With unique keys, looking up the key of entry `i` finds the value of entry `i`. */
  lemma {:induction false} GetInUnique<V>(o: seq<(string, V)>, i: nat)
    requires UniqueKeys(o) && i < |o|
    ensures Get(o, o[i].0) == Some(o[i].1)
  {
    if i > 0 {
      assert o[0].0 != o[i].0;
      assert UniqueKeys(o[1..]);
      GetInUnique(o[1..], i - 1);
    }
  }
}
