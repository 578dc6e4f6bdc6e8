/**
 * Parsed JSON values as the Python code sees them, with the few Python operations
 * the core applies to them: `dict.get`, `in`, `[...]`, `len`, iteration, truth
 * testing, `or`, `+` and `str()`. Each operation fails with the exception Python
 * raises when it meets a value of the wrong kind.
 */
module Json {
  import opened Wrappers
  import opened Strings

  /** A JSON value. Objects keep their keys in insertion order, as Python dicts do. */
  datatype Value =
    | Null
    | Bool(b: bool)
    | Num(n: int)
    | Real(r: real)
    | Str(s: string)
    | Arr(items: seq<Value>)
    | Obj(fields: Dict)

  type Dict = seq<(string, Value)>

  /** The Python exceptions the core can raise on unexpected input. */
  datatype Fault = TypeError | AttributeError | KeyError | IndexError | ValueError

  /**
   * The serialiser and parser, left abstract: `loads` is `json.loads` (None when
   * it raises a decode error), `dumps` is `json.dumps` and `repr` is `str()` of a
   * value that is not a string, a number, a boolean or None.
   */
  datatype Codec = Codec(loads: string -> Option<Value>, dumps: Value -> string, repr: Value -> string)

  // ----- dictionaries -----

  function Keys(d: Dict): seq<string> {
    seq(|d|, i requires 0 <= i < |d| => d[i].0)
  }

  predicate UniqueKeys(d: Dict) {
    forall i, j | 0 <= i < j < |d| :: d[i].0 != d[j].0
  }

  /** `d.get(k)`: the value stored under the first entry with key `k`. */
  function Lookup(d: Dict, k: string): Option<Value>
    decreases |d|
  {
    if d == [] then None
    else if d[0].0 == k then Some(d[0].1)
    else Lookup(d[1..], k)
  }

  predicate HasKey(d: Dict, k: string) {
    Lookup(d, k).Some?
  }

  /** `d[k] = v`: an existing key keeps its place, a new key goes last. */
  function Set(d: Dict, k: string, v: Value): Dict
    decreases |d|
  {
    if d == [] then [(k, v)]
    else if d[0].0 == k then [(k, v)] + d[1..]
    else [d[0]] + Set(d[1..], k, v)
  }

  /** `del d[k]` for a key that is present, and a no-op otherwise. */
  function Del(d: Dict, k: string): Dict
    decreases |d|
  {
    if d == [] then []
    else if d[0].0 == k then d[1..]
    else [d[0]] + Del(d[1..], k)
  }

  lemma {:induction false} HasKeyIffInKeys(d: Dict, k: string)
    ensures HasKey(d, k) <==> k in Keys(d)
    decreases |d|
  {
    if d != [] {
      HasKeyIffInKeys(d[1..], k);
      assert Keys(d) == [d[0].0] + Keys(d[1..]);
    }
  }

  /** Looking a key up in a concatenation searches the first part, then the second. */
  lemma {:induction false} LookupAppend(a: Dict, b: Dict, k: string)
    ensures Lookup(a + b, k) == if HasKey(a, k) then Lookup(a, k) else Lookup(b, k)
    decreases |a|
  {
    if a != [] {
      assert (a + b)[1..] == a[1..] + b;
      LookupAppend(a[1..], b, k);
    } else {
      assert a + b == b;
    }
  }

  /** After `d[k] = v`, key `k` holds `v` and every other key reads as before. */
  lemma {:induction false} LookupSet(d: Dict, k: string, v: Value, k': string)
    ensures Lookup(Set(d, k, v), k') == if k' == k then Some(v) else Lookup(d, k')
    decreases |d|
  {
    if d != [] && d[0].0 != k {
      LookupSet(d[1..], k, v, k');
    }
  }

  /** `d[k] = v` keeps the key order, appending `k` only when it is new. */
  lemma {:induction false} KeysSet(d: Dict, k: string, v: Value)
    ensures Keys(Set(d, k, v)) == if HasKey(d, k) then Keys(d) else Keys(d) + [k]
    decreases |d|
  {
    if d == [] {
    } else if d[0].0 == k {
      assert Keys(Set(d, k, v)) == Keys(d);
    } else {
      KeysSet(d[1..], k, v);
      assert Keys(d) == [d[0].0] + Keys(d[1..]);
      assert Keys(Set(d, k, v)) == [d[0].0] + Keys(Set(d[1..], k, v));
    }
  }

  lemma {:induction false} SetKeepsUnique(d: Dict, k: string, v: Value)
    requires UniqueKeys(d)
    ensures UniqueKeys(Set(d, k, v))
    decreases |d|
  {
    KeysSet(d, k, v);
    var r := Set(d, k, v);
    forall i, j | 0 <= i < j < |r| ensures r[i].0 != r[j].0 {
      assert Keys(r)[i] == r[i].0 && Keys(r)[j] == r[j].0;
      if !HasKey(d, k) && j == |d| {
        HasKeyIffInKeys(d, k);
        assert Keys(d)[i] == d[i].0;
      } else {
        assert Keys(d)[i] == d[i].0 && Keys(d)[j] == d[j].0;
      }
    }
  }

  /** After `del d[k]` on a dict with distinct keys, `k` is gone and the rest reads as before. */
  lemma {:induction false} LookupDel(d: Dict, k: string, k': string)
    requires UniqueKeys(d)
    ensures Lookup(Del(d, k), k') == if k' == k then None else Lookup(d, k')
    decreases |d|
  {
    if d != [] {
      assert UniqueKeys(d[1..]) by {
        forall i, j | 0 <= i < j < |d| - 1 ensures d[1..][i].0 != d[1..][j].0 {
          assert d[1..][i] == d[i + 1] && d[1..][j] == d[j + 1];
        }
      }
      if d[0].0 == k {
        if k' == k {
          LookupAbsent(d[1..], k);
        }
      } else {
        LookupDel(d[1..], k, k');
      }
    }
  }

  /** `del d[k]` leaves every other key reading as before, distinct keys or not. */
  lemma {:induction false} LookupDelOther(d: Dict, k: string, k': string)
    requires k' != k
    ensures Lookup(Del(d, k), k') == Lookup(d, k')
    decreases |d|
  {
    if d != [] && d[0].0 != k {
      LookupDelOther(d[1..], k, k');
    }
  }

  /** An entry whose key does not occur earlier is the one a lookup finds. */
  lemma {:induction false} LookupAt(d: Dict, i: nat)
    requires i < |d| && forall j | 0 <= j < i :: d[j].0 != d[i].0
    ensures Lookup(d, d[i].0) == Some(d[i].1)
    decreases i
  {
    if i > 0 {
      LookupAt(d[1..], i - 1);
    }
  }

  /** A key that no entry carries is not found. */
  lemma {:induction false} LookupAbsent(t: Dict, k: string)
    requires forall i | 0 <= i < |t| :: t[i].0 != k
    ensures Lookup(t, k) == None
    decreases |t|
  {
    if t != [] {
      LookupAbsent(t[1..], k);
    }
  }

  // ----- Python operations on values -----

  /** Python's truth value of a JSON value. */
  predicate Truthy(v: Value) {
    match v
    case Null => false
    case Bool(b) => b
    case Num(n) => n != 0
    case Real(r) => r != 0.0
    case Str(s) => s != ""
    case Arr(a) => a != []
    case Obj(d) => d != []
  }

  /** `a or b`. */
  function PyOr(a: Value, b: Value): (r: Value)
    ensures Truthy(a) ==> r == a
    ensures !Truthy(a) ==> r == b
  {
    if Truthy(a) then a else b
  }

  /** `v.get(k)`: only a dict has `get`. */
  function Get(v: Value, k: string): (r: Result<Option<Value>, Fault>)
    ensures r.Success? <==> v.Obj?
    ensures v.Obj? ==> r.value == Lookup(v.fields, k)
  {
    if v.Obj? then Success(Lookup(v.fields, k)) else Failure(AttributeError)
  }

  /** `v.get(k, default)`. */
  function GetOr(v: Value, k: string, default: Value): (r: Result<Value, Fault>)
    ensures r.Success? <==> v.Obj?
    ensures v.Obj? ==> r.value == Lookup(v.fields, k).GetOr(default)
  {
    if v.Obj? then Success(Lookup(v.fields, k).GetOr(default)) else Failure(AttributeError)
  }

  /** `k in v` for a string `k`: a key test on a dict, a membership test on a list,
      a substring test on a string, and a TypeError on anything else. */
  function In(k: string, v: Value): Result<bool, Fault> {
    match v
    case Obj(d) => Success(HasKey(d, k))
    case Arr(a) => Success(Str(k) in a)
    case Str(s) => Success(Occurs(s, k))
    case _ => Failure(TypeError)
  }

  /** `v[k]` for a string `k`. */
  function Subscript(v: Value, k: string): (r: Result<Value, Fault>)
    ensures r.Success? <==> v.Obj? && HasKey(v.fields, k)
  {
    match v
    case Obj(d) => if HasKey(d, k) then Success(Lookup(d, k).value) else Failure(KeyError)
    case _ => Failure(TypeError)
  }

  /** `v[0]`. */
  function Index0(v: Value): (r: Result<Value, Fault>)
    ensures r.Success? <==> (v.Arr? && v.items != []) || (v.Str? && v.s != "")
    ensures r.Success? && v.Arr? ==> r.value == v.items[0]
    ensures r.Success? && v.Str? ==> r.value.Str?
  {
    match v
    case Arr(a) => if a == [] then Failure(IndexError) else Success(a[0])
    case Str(s) => if s == "" then Failure(IndexError) else Success(Str([s[0]]))
    case Obj(_) => Failure(KeyError)
    case _ => Failure(TypeError)
  }

  /** `len(v)`. */
  function Len(v: Value): Result<nat, Fault> {
    match v
    case Str(s) => Success(|s|)
    case Arr(a) => Success(|a|)
    case Obj(d) => Success(|d|)
    case _ => Failure(TypeError)
  }

  /** What `for x in v` visits: list items, one-character strings, or dict keys. */
  function Iterate(v: Value): (r: Result<seq<Value>, Fault>)
    ensures r.Success? <==> v.Arr? || v.Str? || v.Obj?
    ensures r.Success? ==> Len(v) == Success(|r.value|)
  {
    match v
    case Arr(a) => Success(a)
    case Str(s) => Success(seq(|s|, i requires 0 <= i < |s| => Str([s[i]])))
    case Obj(d) => Success(seq(|d|, i requires 0 <= i < |d| => Str(d[i].0)))
    case _ => Failure(TypeError)
  }

  /** Python's numeric view of booleans and integers. */
  function IntOf(v: Value): int
    requires v.Num? || v.Bool?
  {
    if v.Num? then v.n else if v.b then 1 else 0
  }

  function RealOf(v: Value): real
    requires v.Num? || v.Bool? || v.Real?
  {
    if v.Real? then v.r else IntOf(v) as real
  }

  predicate IsNumber(v: Value) {
    v.Num? || v.Bool? || v.Real?
  }

  /** `a + b`: string and list concatenation, numeric addition, TypeError otherwise. */
  function PyAdd(a: Value, b: Value): (r: Result<Value, Fault>)
    ensures a.Str? && b.Str? ==> r == Success(Str(a.s + b.s))
    ensures r.Success? ==> (a.Str? <==> b.Str?) && (a.Arr? <==> b.Arr?)
  {
    if a.Str? && b.Str? then Success(Str(a.s + b.s))
    else if a.Arr? && b.Arr? then Success(Arr(a.items + b.items))
    else if (a.Num? || a.Bool?) && (b.Num? || b.Bool?) then Success(Num(IntOf(a) + IntOf(b)))
    else if IsNumber(a) && IsNumber(b) then Success(Real(RealOf(a) + RealOf(b)))
    else Failure(TypeError)
  }

  /**
   * `a += b`. On a list this is `list.extend`, which accepts any iterable
   * (a string contributes its characters, a dict its keys); on anything else
   * it is `a + b`.
   */
  function PyIAdd(a: Value, b: Value): (r: Result<Value, Fault>)
    ensures a.Arr? ==> (r.Success? <==> (b.Arr? || b.Str? || b.Obj?))
    ensures a.Arr? && r.Success? ==> r.value == Arr(a.items + Iterate(b).value)
    ensures a.Arr? && b.Arr? ==> r == Success(Arr(a.items + b.items))
    ensures a.Str? ==> r == (if b.Str? then Success(Str(a.s + b.s)) else Failure(TypeError))
    ensures !a.Arr? ==> r == PyAdd(a, b)
  {
    if a.Arr? then
      match Iterate(b)
      case Success(xs) => Success(Arr(a.items + xs))
      case Failure(e) => Failure(e)
    else PyAdd(a, b)
  }

  /** `str(v)`, as used by f-strings; floats and containers go through the codec. */
  function PyStr(codec: Codec, v: Value): string {
    match v
    case Str(s) => s
    case Null => "None"
    case Bool(b) => if b then "True" else "False"
    case Num(n) => IntToString(n)
    case _ => codec.repr(v)
  }
}
