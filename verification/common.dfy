/**
  Shared vocabulary of the model: optional values, user and socket ids, the
  JSON values that travel as signalling payloads, JavaScript truthiness, and
  the "remove every occurrence" list filter used by several components.
 */
module Common {

  datatype Option<T> = None | Some(value: T)

  /** User ids and socket ids are opaque strings; "" stands for a missing
      (null or undefined) id wherever the source only tests truthiness. */
  type UserId = string
  type SocketId = string

  /** A JSON value as received from the wire. A JavaScript `undefined`
      field is an absent key, so `Field` answers `None` for it. Numbers are
      integers here (no NaN and no fractions). */
  datatype Json =
    | Null
    | Bool(b: bool)
    | Num(n: int)
    | Str(s: string)
    | Arr(items: seq<Json>)
    | Obj(fields: map<string, Json>)

  /** JavaScript truthiness: null, false, 0 and "" are falsy; every array
      and object is truthy. */
  predicate Truthy(j: Json)
  {
    match j
    case Null => false
    case Bool(b) => b
    case Num(n) => n != 0
    case Str(s) => s != ""
    case Arr(_) => true
    case Obj(_) => true
  }

  /** `typeof j === 'object'` for a non-null value. */
  predicate IsObjectLike(j: Json)
  {
    j.Arr? || j.Obj?
  }

  /** Property access `j.key`: only objects have named properties; reading
      a property of any other non-null value yields undefined. */
  function Field(j: Json, key: string): (r: Option<Json>)
    ensures r.Some? <==> j.Obj? && key in j.fields
  {
    if j.Obj? && key in j.fields then Some(j.fields[key]) else None
  }

  /** `j.key` is truthy. */
  predicate HasTruthy(j: Json, key: string)
  {
    Field(j, key).Some? && Truthy(Field(j, key).value)
  }

  /** `j.key`, with undefined read as null. */
  function FieldOrNull(j: Json, key: string): Json
  {
    match Field(j, key)
    case Some(v) => v
    case None => Null
  }

  /** `xs.filter(y => y !== x)`: every occurrence of `x` removed, the rest
      kept in order. */
  function RemoveAll<T(==)>(xs: seq<T>, x: T): (r: seq<T>)
    ensures x !in r
    ensures |r| <= |xs|
    ensures forall i :: 0 <= i < |r| ==> r[i] in xs && r[i] != x
    ensures forall i :: 0 <= i < |xs| && xs[i] != x ==> xs[i] in r
  {
    if xs == [] then []
    else if xs[0] == x then RemoveAll(xs[1..], x)
    else [xs[0]] + RemoveAll(xs[1..], x)
  }

  /** Removing an element that does not occur changes nothing. */
  lemma {:induction false} RemoveAllAbsent<T>(xs: seq<T>, x: T)
    requires x !in xs
    ensures RemoveAll(xs, x) == xs
  {
    if xs != [] {
      assert xs[0] != x;
      assert x !in xs[1..];
      RemoveAllAbsent(xs[1..], x);
      assert xs == [xs[0]] + xs[1..];
    }
  }

  /** Filtering distributes over concatenation. */
  lemma {:induction false} RemoveAllAppend<T>(xs: seq<T>, ys: seq<T>, x: T)
    ensures RemoveAll(xs + ys, x) == RemoveAll(xs, x) + RemoveAll(ys, x)
  {
    if xs == [] {
      assert xs + ys == ys;
    } else {
      assert (xs + ys)[0] == xs[0];
      assert (xs + ys)[1..] == xs[1..] + ys;
      RemoveAllAppend(xs[1..], ys, x);
    }
  }

  /** Filtering keeps every other element as often as it occurred. */
  lemma {:induction false} RemoveAllCount<T>(xs: seq<T>, x: T, y: T)
    requires y != x
    ensures multiset(RemoveAll(xs, x))[y] == multiset(xs)[y]
  {
    if xs != [] {
      RemoveAllCount(xs[1..], x, y);
      assert xs == [xs[0]] + xs[1..];
      assert multiset(xs) == multiset{xs[0]} + multiset(xs[1..]);
      if xs[0] != x {
        assert multiset(RemoveAll(xs, x)) == multiset{xs[0]} + multiset(RemoveAll(xs[1..], x));
      }
    }
  }
}
