/** The parsed mapping document as both scripts see it: a JSON/YAML value tree,
    with Python's truthiness, `dict.get`, iteration and `str()` on it, and the
    failures (`SystemExit`, `KeyError`, `TypeError`) the scripts can raise. */
module Mapping {
  import opened Strings

  /** A parsed JSON/YAML value. Objects keep their key order, as Python dicts do. */
  datatype Value =
    | Null
    | Bool(b: bool)
    | Int(i: int)
    | Str(s: string)
    | Lst(items: seq<Value>)
    | Obj(fields: Fields)

  /** The key/value pairs of an object, in insertion order. */
  type Fields = seq<(string, Value)>

  datatype Option<T> = None | Some(value: T)

  /** Why rendering stopped; the scripts' message texts are not modelled. */
  datatype Error =
    | MissingNameOrTable            // "Each source needs both `name` and `table`."
    | MissingNameOrFrom             // "Each query needs both `name` and `from`."
    | UnsupportedItem(item: Value)  // "Unsupported item format: ..."
    | MissingKey(key: string)       // KeyError from `item['name']`
    | NotIterable(section: Value)   // TypeError from `for x in None` and the like
    | JoinNotObject(join: Value)    // "Join must be object: ..."
    | JoinMissingNameOrOn(join: Value)
    | JoinMissingTarget(join: Value)

  datatype Result<T> = Success(value: T) | Failure(error: Error) {
    predicate IsFailure() { Failure? }

    function PropagateFailure<U>(): Result<U>
      requires Failure?
    {
      Failure(error)
    }

    function Extract(): T
      requires Success?
    {
      value
    }
  }

  /** Python truthiness: `not v` holds exactly when this is false. */
  predicate Truthy(v: Value)
  {
    match v
    case Null => false
    case Bool(b) => b
    case Int(i) => i != 0
    case Str(s) => s != ""
    case Lst(xs) => xs != []
    case Obj(fs) => fs != []
  }

  /** Exactly six values are falsy: `None`, `False`, `0` and the empty
      string, list and dict. */
  lemma Falsy(v: Value)
    ensures !Truthy(v) <==> v in {Null, Bool(false), Int(0), Str(""), Lst([]), Obj([])}
  {
  }

  predicate HasKey(fs: Fields, key: string)
  {
    exists i :: 0 <= i < |fs| && fs[i].0 == key
  }

  /** The value bound to `key`, from its first binding. */
  function Lookup(fs: Fields, key: string): (r: Option<Value>)
    ensures r.Some? <==> HasKey(fs, key)
    ensures r.Some? ==> exists i :: 0 <= i < |fs| && fs[i] == (key, r.value)
  {
    if fs == [] then None
    else if fs[0].0 == key then Some(fs[0].1)
    else
      var r := Lookup(fs[1..], key);
      assert HasKey(fs, key) ==> fs[0].0 == key || HasKey(fs[1..], key) by {
        if HasKey(fs, key) {
          var i :| 0 <= i < |fs| && fs[i].0 == key;
          if i > 0 { assert fs[1..][i - 1].0 == key; }
        }
      }
      assert r.Some? ==> exists i :: 0 <= i < |fs| && fs[i] == (key, r.value) by {
        if r.Some? {
          var i :| 0 <= i < |fs[1..]| && fs[1..][i] == (key, r.value);
          assert fs[i + 1] == (key, r.value);
        }
      }
      r
  }

  /** `d.get(key, default)`. */
  function FieldOr(fs: Fields, key: string, default: Value): (r: Value)
    ensures !HasKey(fs, key) ==> r == default
    ensures HasKey(fs, key) ==> Lookup(fs, key) == Some(r)
  {
    match Lookup(fs, key)
    case Some(v) => v
    case None => default
  }

  /** `d.get(key)`: `None` when the key is absent. */
  function Field(fs: Fields, key: string): Value
  {
    FieldOr(fs, key, Null)
  }

  /** What `for x in v` walks over: a list's items, a string's characters, a
      dict's keys; any other value raises `TypeError`. */
  function Iterate(v: Value): Result<seq<Value>>
  {
    match v
    case Lst(xs) => Success(xs)
    case Str(s) => Success(seq(|s|, i requires 0 <= i < |s| => Str([s[i]])))
    case Obj(fs) => Success(seq(|fs|, i requires 0 <= i < |fs| => Str(fs[i].0)))
    case _ => Failure(NotIterable(v))
  }

  /** A list walks over its items, a string over its one-character strings
      and a dict over its keys, in order; only the other scalars fail. */
  lemma IterateSpec(v: Value)
    ensures v.Lst? ==> Iterate(v) == Success(v.items)
    ensures v.Str? ==> Iterate(v).Success? && |Iterate(v).value| == |v.s|
                       && forall i :: 0 <= i < |v.s| ==> Iterate(v).value[i] == Str([v.s[i]])
    ensures v.Obj? ==> Iterate(v).Success? && |Iterate(v).value| == |v.fields|
                       && forall i :: 0 <= i < |v.fields| ==> Iterate(v).value[i] == Str(v.fields[i].0)
    ensures Iterate(v).Failure? <==> v.Null? || v.Bool? || v.Int?
  {
  }

  /** A section such as `item.get("dimensions", [])`, ready to be walked over. */
  function Section(fs: Fields, key: string): (r: Result<seq<Value>>)
    ensures !HasKey(fs, key) ==> r == Success([])
  {
    Iterate(FieldOr(fs, key, Lst([])))
  }

  /** `str(v)` inside an f-string. Lists and dicts get a placeholder: their
      `repr` is not modelled. */
  function Text(v: Value): string
  {
    match v
    case Null => "None"
    case Bool(b) => if b then "True" else "False"
    case Int(i) => Decimal(i)
    case Str(s) => s
    case Lst(_) => "[...]"
    case Obj(_) => "{...}"
  }

  /** Applies `f` to each value in order and stops at the first failure, as a
      Python loop does when its body raises. */
  function Traverse<T>(f: Value -> Result<T>, vs: seq<Value>): Result<seq<T>>
    decreases |vs|
  {
    if vs == [] then Success([])
    else
      var init :- Traverse(f, vs[..|vs| - 1]);
      var last :- f(vs[|vs| - 1]);
      Success(init + [last])
  }

  /** The walk succeeds exactly when `f` accepts every value, and then yields
      one result per value, in order; otherwise it fails with the error of the
      first value `f` refuses. */
  lemma {:induction false} TraverseSpec<T>(f: Value -> Result<T>, vs: seq<Value>)
    ensures Traverse(f, vs).Success? <==> forall i :: 0 <= i < |vs| ==> f(vs[i]).Success?
    ensures Traverse(f, vs).Success? ==>
              && |Traverse(f, vs).value| == |vs|
              && forall i :: 0 <= i < |vs| ==> Traverse(f, vs).value[i] == f(vs[i]).value
    ensures Traverse(f, vs).Failure? ==>
              exists k :: 0 <= k < |vs| && f(vs[k]).Failure? && Traverse(f, vs).error == f(vs[k]).error
                          && forall i :: 0 <= i < k ==> f(vs[i]).Success?
    decreases |vs|
  {
    if vs != [] {
      var init := vs[..|vs| - 1];
      TraverseSpec(f, init);
      assert forall i :: 0 <= i < |init| ==> init[i] == vs[i];
      if Traverse(f, init).Failure? {
        var k :| 0 <= k < |init| && f(init[k]).Failure? && Traverse(f, init).error == f(init[k]).error
                 && forall i :: 0 <= i < k ==> f(init[i]).Success?;
        assert vs[k] == init[k];
      }
    }
  }

  /** The success half of `TraverseSpec`, on its own. */
  lemma TraverseSucceeds<T>(f: Value -> Result<T>, vs: seq<Value>)
    ensures Traverse(f, vs).Success? <==> forall i :: 0 <= i < |vs| ==> f(vs[i]).Success?
  {
    TraverseSpec(f, vs);
  }

  /** A successful walk yields one result per value, in order. */
  lemma TraverseValues<T>(f: Value -> Result<T>, vs: seq<Value>)
    requires Traverse(f, vs).Success?
    ensures |Traverse(f, vs).value| == |vs|
    ensures forall i :: 0 <= i < |vs| ==> f(vs[i]).Success? && Traverse(f, vs).value[i] == f(vs[i]).value
  {
    TraverseSpec(f, vs);
  }

  lemma TraverseLength<T>(f: Value -> Result<T>, vs: seq<Value>)
    requires Traverse(f, vs).Success?
    ensures |Traverse(f, vs).value| == |vs|
  {
    TraverseSpec(f, vs);
  }

  /** The step a loop over `vs` takes: once the first `i` values succeeded,
      the `i`-th decides whether the prefix grows or the whole walk fails. */
  lemma TraverseStep<T>(f: Value -> Result<T>, vs: seq<Value>, i: nat)
    requires i < |vs|
    requires Traverse(f, vs[..i]).Success?
    ensures f(vs[i]).Success? ==>
              Traverse(f, vs[..i + 1]) == Success(Traverse(f, vs[..i]).value + [f(vs[i]).value])
    ensures f(vs[i]).Failure? ==> Traverse(f, vs) == Failure(f(vs[i]).error)
  {
    assert vs[..i + 1][..i] == vs[..i];
    if f(vs[i]).Failure? {
      TraverseKeepsFailure(f, vs, i + 1);
    }
  }

  /** Once a prefix of the values fails, the whole walk fails the same way. */
  lemma {:induction false} TraverseKeepsFailure<T>(f: Value -> Result<T>, vs: seq<Value>, j: nat)
    requires j <= |vs|
    requires Traverse(f, vs[..j]).Failure?
    ensures Traverse(f, vs) == Traverse(f, vs[..j])
    decreases |vs| - j
  {
    if j < |vs| {
      assert vs[..j + 1][..j] == vs[..j];
      TraverseKeepsFailure(f, vs, j + 1);
    } else {
      assert vs[..j] == vs;
    }
  }
}
