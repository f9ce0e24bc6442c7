/** Shared vocabulary of the league model.

    Every row of the league's database is identified by an opaque id, modelled
    as a natural number.  Datetimes are modelled as integers on one common time
    axis, so "7 days later" is `d + 7 * Day`.  The current time is never read
    from a clock: the operations that need it take `now` as a parameter. */
module Common {

  type Id = nat
  type Time = int

  /** Length of one day on the model's time axis. */
  const Day: int := 1

  datatype Option<+T> = None | Some(value: T)

  /** The outcome of an operation that may raise: `Err` carries which of the
      source's exceptions was raised. */
  datatype Result<+T, +E> = Ok(value: T) | Err(error: E)

  /** Outcome of an operation that raises or returns nothing. */
  datatype Outcome<+E> = Pass | Fail(error: E)

  /** Number of elements of `s` that satisfy `p`, as `len([x for x in s if p(x)])`. */
  function CountIf<T>(s: seq<T>, p: T -> bool): (n: nat)
    ensures n <= |s|
    ensures n == 0 <==> forall i :: 0 <= i < |s| ==> !p(s[i])
    ensures n == |s| <==> forall i :: 0 <= i < |s| ==> p(s[i])
  {
    if s == [] then 0 else (if p(s[0]) then 1 else 0) + CountIf(s[1..], p)
  }

  /** The elements of `s` that satisfy `p`, in order. */
  function Filter<T>(s: seq<T>, p: T -> bool): (r: seq<T>)
    ensures |r| == CountIf(s, p)
    ensures forall i :: 0 <= i < |r| ==> p(r[i]) && r[i] in s
    ensures forall i :: 0 <= i < |s| && p(s[i]) ==> s[i] in r
  {
    if s == [] then [] else (if p(s[0]) then [s[0]] else []) + Filter(s[1..], p)
  }

  /** Index of the first element of `s` that satisfies `p`, as
      `next((x for x in s if p(x)), None)` and a query's `.first()`. */
  function FirstWhere<T>(s: seq<T>, p: T -> bool): (r: Option<nat>)
    ensures r.Some? ==> r.value < |s| && p(s[r.value]) && forall j :: 0 <= j < r.value ==> !p(s[j])
    ensures r.None? ==> forall j :: 0 <= j < |s| ==> !p(s[j])
  {
    if s == [] then None
    else if p(s[0]) then Some(0)
    else match FirstWhere(s[1..], p)
      case None => None
      case Some(k) => Some(k + 1)
  }

  /** Two predicates that agree everywhere count the same elements. */
  lemma {:induction false} CountIfSame<T>(s: seq<T>, p: T -> bool, q: T -> bool)
    requires forall x :: p(x) == q(x)
    ensures CountIf(s, p) == CountIf(s, q)
  {
    if s != [] {
      CountIfSame(s[1..], p, q);
    }
  }

  /** The text of an id, as `str(id)`: its decimal digits. */
  function IdText(id: Id): (s: string)
    ensures |s| > 0 && forall k :: 0 <= k < |s| ==> '0' <= s[k] <= '9'
  {
    var d := ['0' + (id % 10) as char];
    if id < 10 then d else IdText(id / 10) + d
  }

  lemma {:induction false} CountIfAppend<T>(a: seq<T>, b: seq<T>, p: T -> bool)
    ensures CountIf(a + b, p) == CountIf(a, p) + CountIf(b, p)
  {
    if a == [] {
      assert a + b == b;
    } else {
      assert (a + b)[1..] == a[1..] + b;
      CountIfAppend(a[1..], b, p);
    }
  }

  /** Sum of `f` over `s`, as Python's `sum(f(x) for x in s)`. */
  function SumOf<T>(s: seq<T>, f: T -> int): int
  {
    if s == [] then 0 else f(s[0]) + SumOf(s[1..], f)
  }

  predicate IsMin(m: Id, s: set<Id>) { m in s && forall x :: x in s ==> m <= x }
  predicate IsMax(m: Id, s: set<Id>) { m in s && forall x :: x in s ==> x <= m }

  lemma {:induction false} MinExists(s: set<Id>)
    requires s != {}
    ensures exists m :: IsMin(m, s)
  {
    var y :| y in s;
    if s == {y} {
      assert IsMin(y, s);
    } else {
      MinExists(s - {y});
      var lo :| IsMin(lo, s - {y});
      assert forall x :: x in s ==> x == y || x in s - {y};
      if y < lo { assert IsMin(y, s); } else { assert IsMin(lo, s); }
    }
  }

  lemma {:induction false} MaxExists(s: set<Id>)
    requires s != {}
    ensures exists m :: IsMax(m, s)
  {
    var y :| y in s;
    if s == {y} {
      assert IsMax(y, s);
    } else {
      MaxExists(s - {y});
      var hi :| IsMax(hi, s - {y});
      assert forall x :: x in s ==> x == y || x in s - {y};
      if y > hi { assert IsMax(y, s); } else { assert IsMax(hi, s); }
    }
  }

  /** The least id of a finite non-empty set. */
  function MinId(s: set<Id>): (m: Id)
    requires s != {}
    ensures m in s && forall x :: x in s ==> m <= x
  {
    MinExists(s);
    var m :| IsMin(m, s);
    m
  }

  /** The greatest id of a finite non-empty set. */
  function MaxId(s: set<Id>): (m: Id)
    requires s != {}
    ensures m in s && forall x :: x in s ==> x <= m
  {
    MaxExists(s);
    var m :| IsMax(m, s);
    m
  }

  /** An id not yet used in `s`; stands for the fresh `uuid4()` of a new row. */
  function FreshId(s: set<Id>): (id: Id)
    ensures id !in s
  {
    if s == {} then 0 else MaxId(s) + 1
  }

  /** `query.first()`: the row with the least id among those selected, or None.
      The database's row order is not modelled; the least id stands for it. */
  function First(s: set<Id>): (r: Option<Id>)
    ensures r.None? <==> s == {}
    ensures r.Some? ==> r.value in s
  {
    if s == {} then None else Some(MinId(s))
  }

  /** The ids of `s` in ascending order: the order in which the model lists the
      rows a query returns (each row once). */
  function Ordered(s: set<Id>): (r: seq<Id>)
    ensures |r| == |s|
    ensures forall x :: x in r <==> x in s
    decreases s
  {
    if s == {} then [] else [MinId(s)] + Ordered(s - {MinId(s)})
  }

  /** The rows of `after` whose ids are not in `before`: what an insert added. */
  function AddedRows<V>(before: map<Id, V>, after: map<Id, V>): set<V>
  {
    set id | id in after && id !in before :: after[id]
  }

  /** Two maps with the same keys and the same value at each key are equal. */
  lemma MapsAgree<K, V>(a: map<K, V>, b: map<K, V>)
    requires forall k :: k in a <==> k in b
    requires forall k :: k in a ==> a[k] == b[k]
    ensures a == b
  {
  }

  /** A proper subset is smaller than its superset. */
  lemma ProperSubsetCard<T>(a: set<T>, b: set<T>)
    requires a < b
    ensures |a| < |b|
  {
    assert b == a + (b - a);
    assert b - a != {};
  }

  /** A subset is no larger than its superset. */
  lemma SubsetCard<T>(a: set<T>, b: set<T>)
    requires a <= b
    ensures |a| <= |b|
  {
    assert b == a + (b - a);
  }
}
