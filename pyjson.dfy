/**
 * Values produced by `json.loads`, and the parts of Python's evaluation
 * rules that the Google document mapper depends on: subscripting with a
 * string key or an integer index, `len`, and unpacking into two names.
 * Every operation returns the exception Python would raise instead of
 * requiring well-shaped input.
 */
module PyJson {

  /** A decoded JSON value. Numbers are kept opaque: nothing computes with them. */
  datatype Json =
    | Null
    | Bool(b: bool)
    | Int(i: int)
    | Float(f: real)
    | Str(s: string)
    | Arr(elems: seq<Json>)
    | Obj(fields: map<string, Json>)

  /** The key carried by a `KeyError`. */
  datatype Key = StrKey(s: string) | IntKey(i: int)

  /** The Python exceptions the mapper can raise. */
  datatype PyError = TypeError | KeyError(key: Key) | IndexError | ValueError

  /** A computation that either yields a value or raises. */
  datatype Result<+T> = Ok(value: T) | Err(error: PyError) {
    predicate IsFailure() { Err? }

    function PropagateFailure<U>(): Result<U>
      requires Err?
    {
      Err(error)
    }

    function Extract(): T
      requires Ok?
    {
      value
    }
  }

  /** One subscript in a chain such as `v['queries']['request'][0]`. */
  datatype Step = Field(name: string) | Index(i: nat)

  /**
   * `v[step]`. A string key works only on a dict; an integer index works on
   * a list or a str (giving a one-character str), and on a dict it is looked
   * up as an integer key, which a decoded JSON object never has.
   */
  function Subscript(v: Json, step: Step): Result<Json>
  {
    match step
    case Field(name) =>
      (match v
       case Obj(m) => if name in m then Ok(m[name]) else Err(KeyError(StrKey(name)))
       case _ => Err(TypeError))
    case Index(i) =>
      (match v
       case Arr(a) => if i < |a| then Ok(a[i]) else Err(IndexError)
       case Str(s) => if i < |s| then Ok(Str([s[i]])) else Err(IndexError)
       case Obj(_) => Err(KeyError(IntKey(i)))
       case _ => Err(TypeError))
  }

  /** A chain of subscripts, evaluated left to right; the first failing one raises. */
  function Lookup(v: Json, path: seq<Step>): Result<Json>
    decreases |path|
  {
    if path == [] then Ok(v)
    else
      var w :- Subscript(v, path[0]);
      Lookup(w, path[1..])
  }

  /** Splitting a chain: `v[p][q]` is `(v[p])[q]`, and a failure in `v[p]` is the failure. */
  lemma {:induction false} LookupAppend(v: Json, p: seq<Step>, q: seq<Step>)
    ensures Lookup(v, p + q) ==
            (match Lookup(v, p)
             case Ok(w) => Lookup(w, q)
             case Err(e) => Err(e))
    decreases |p|
  {
    if p == [] {
      assert p + q == q;
    } else {
      assert (p + q)[0] == p[0];
      assert (p + q)[1..] == p[1..] + q;
      match Subscript(v, p[0])
      case Ok(w) => LookupAppend(w, p[1..], q);
      case Err(_) =>
    }
  }

  /** A chain of one subscript is that subscript. */
  lemma LookupOne(v: Json, step: Step)
    ensures Lookup(v, [step]) == Subscript(v, step)
  {
    match Subscript(v, step)
    case Ok(w) => assert Lookup(w, [step][1..]) == Ok(w);
    case Err(_) =>
  }

  /**
   * Several chains evaluated in order, as a run of assignment statements
   * does: the values of all of them, or the exception of the first that raises.
   */
  function LookupAll(v: Json, paths: seq<seq<Step>>): (r: Result<seq<Json>>)
    ensures r.Ok? ==> |r.value| == |paths|
    decreases |paths|
  {
    if paths == [] then Ok([])
    else
      var first :- Lookup(v, paths[0]);
      var rest :- LookupAll(v, paths[1..]);
      Ok([first] + rest)
  }

  /** On success, the i-th value is the i-th chain's value. */
  lemma {:induction false} LookupAllValues(v: Json, paths: seq<seq<Step>>)
    requires LookupAll(v, paths).Ok?
    ensures forall i | 0 <= i < |paths| :: Lookup(v, paths[i]) == Ok(LookupAll(v, paths).value[i])
    decreases |paths|
  {
    if paths != [] {
      LookupAllValues(v, paths[1..]);
      forall i | 0 <= i < |paths| ensures Lookup(v, paths[i]) == Ok(LookupAll(v, paths).value[i]) {
        if i > 0 {
          assert paths[i] == paths[1..][i - 1];
        }
      }
    }
  }

  /**
   * It fails exactly when some chain raises, and then with the exception of
   * the first chain that does.
   */
  lemma {:induction false} LookupAllFirstError(v: Json, paths: seq<seq<Step>>, k: nat)
    requires k < |paths| && Lookup(v, paths[k]).Err?
    requires forall i | 0 <= i < k :: Lookup(v, paths[i]).Ok?
    ensures LookupAll(v, paths) == Err(Lookup(v, paths[k]).error)
    decreases k
  {
    if k > 0 {
      assert paths[1..][k - 1] == paths[k];
      forall i | 0 <= i < k - 1 ensures Lookup(v, paths[1..][i]).Ok? {
        assert paths[1..][i] == paths[i + 1];
      }
      LookupAllFirstError(v, paths[1..], k - 1);
    }
  }

  /** Conversely, a failure comes from the first chain that raises. */
  lemma {:induction false} LookupAllFailingPath(v: Json, paths: seq<seq<Step>>) returns (k: nat)
    requires LookupAll(v, paths).Err?
    ensures k < |paths| && Lookup(v, paths[k]) == Err(LookupAll(v, paths).error)
    ensures forall i | 0 <= i < k :: Lookup(v, paths[i]).Ok?
    decreases |paths|
  {
    if Lookup(v, paths[0]).Err? {
      k := 0;
    } else {
      var k' := LookupAllFailingPath(v, paths[1..]);
      k := k' + 1;
      forall i | 0 <= i < k ensures Lookup(v, paths[i]).Ok? {
        if i > 0 {
          assert paths[i] == paths[1..][i - 1];
        }
      }
    }
  }

  /** Two values on which every chain agrees give the same combined result. */
  lemma {:induction false} LookupAllAgree(v: Json, v': Json, paths: seq<seq<Step>>)
    requires forall i | 0 <= i < |paths| :: Lookup(v, paths[i]) == Lookup(v', paths[i])
    ensures LookupAll(v, paths) == LookupAll(v', paths)
    decreases |paths|
  {
    if paths != [] {
      assert Lookup(v, paths[0]) == Lookup(v', paths[0]);
      forall i | 0 <= i < |paths| - 1 ensures Lookup(v, paths[1..][i]) == Lookup(v', paths[1..][i]) {
        assert paths[1..][i] == paths[i + 1];
      }
      LookupAllAgree(v, v', paths[1..]);
    }
  }

  /** Two values that agree on `v[p]` agree on every longer chain through it. */
  lemma LookupThrough(v: Json, v': Json, p: seq<Step>, q: seq<Step>)
    requires Lookup(v, p) == Lookup(v', p)
    ensures Lookup(v, p + q) == Lookup(v', p + q)
  {
    LookupAppend(v, p, q);
    LookupAppend(v', p, q);
  }

  /** A string key never raises IndexError, whatever it is applied to. */
  lemma FieldNeverIndexError(v: Json, name: string)
    ensures Lookup(v, [Field(name)]) != Err(IndexError)
  {
    LookupOne(v, Field(name));
  }

  /** `len(v)`: defined on str, list and dict only. */
  function Len(v: Json): Result<nat>
  {
    match v
    case Str(s) => Ok(|s|)
    case Arr(a) => Ok(|a|)
    case Obj(m) => Ok(|m|)
    case _ => Err(TypeError)
  }

  /**
   * A value on the right of `a, b = value`, described by what iterating it
   * yields (a tuple or list its elements, a str its characters); int, float,
   * bool and None are not iterable.
   */
  datatype Entry = Iterable(items: seq<Json>) | NotIterable

  /** `a, b = e`: raises TypeError on a non-iterable and ValueError on a length other than two. */
  function Unpack2(e: Entry): Result<(Json, Json)>
  {
    match e
    case NotIterable => Err(TypeError)
    case Iterable(items) => if |items| == 2 then Ok((items[0], items[1])) else Err(ValueError)
  }
}
