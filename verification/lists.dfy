/** The two list searches of the type utilities: the first item whose
    attribute equals a value, and all such items. The attribute read
    `getattr(item, attribute)` is modelled by a function `attr`. */
module Lists {
  import opened Base

  /** `a` is `b` with some elements left out, the rest kept in order. */
  ghost predicate SubsequenceOf<T>(a: seq<T>, b: seq<T>)
    decreases |b|
  {
    if a == [] then true
    else if b == [] then false
    else if a[0] == b[0] then SubsequenceOf(a[1..], b[1..])
    else SubsequenceOf(a, b[1..])
  }

  /** `r` holds exactly the items of `xs` whose attribute equals `value`:
      each with its multiplicity in `xs`, in the order of `xs`. */
  ghost predicate Filtered<T, K>(r: seq<T>, xs: seq<T>, attr: T -> K, value: K) {
    && (forall i | 0 <= i < |r| :: attr(r[i]) == value)
    && (forall x | x in xs :: multiset(r)[x] == if attr(x) == value then multiset(xs)[x] else 0)
    && SubsequenceOf(r, xs)
  }

  /** A subsequence takes no item more often than the list holds it. */
  lemma {:induction false} SubsequenceCounts<T>(a: seq<T>, b: seq<T>)
    requires SubsequenceOf(a, b)
    ensures multiset(a) <= multiset(b)
    decreases |b|
  {
    if a != [] {
      assert b == [b[0]] + b[1..];
      if a[0] == b[0] {
        assert a == [a[0]] + a[1..];
        SubsequenceCounts(a[1..], b[1..]);
      } else {
        SubsequenceCounts(a, b[1..]);
      }
    }
  }

  /** `x` is the first item of `xs`, in list order, whose attribute equals
      `value`. */
  ghost predicate IsFirstMatch<T, K>(xs: seq<T>, attr: T -> K, value: K, x: T) {
    exists i | 0 <= i < |xs| ::
      xs[i] == x && attr(xs[i]) == value && forall j | 0 <= j < i :: attr(xs[j]) != value
  }

  /** `x` is the first item of `xs` whose attribute reads as `value`, and
      every attribute before it was read without raising. */
  ghost predicate IsFirstCheckedMatch<T, K>(xs: seq<T>, attr: T -> Result<K>, value: K, x: T) {
    exists i | 0 <= i < |xs| :: xs[i] == x && CheckedMatchAt(xs, attr, value, i)
  }

  /** Position `i` is the first whose attribute reads as `value`, and every
      attribute before it was read without raising. */
  ghost predicate CheckedMatchAt<T, K>(xs: seq<T>, attr: T -> Result<K>, value: K, i: int) {
    && 0 <= i < |xs|
    && attr(xs[i]) == Success(value)
    && forall j | 0 <= j < i :: attr(xs[j]).Success? && attr(xs[j]).value != value
  }

  /** Reading the attribute at position `i` raises, and every attribute
      before it was read without raising and differs from `value`. */
  ghost predicate CheckedRaiseAt<T, K>(xs: seq<T>, attr: T -> Result<K>, value: K, i: int) {
    && 0 <= i < |xs|
    && attr(xs[i]).Failure?
    && forall j | 0 <= j < i :: attr(xs[j]).Success? && attr(xs[j]).value != value
  }

  /** Reading the attributes of `xs` in order raises `e` before any of them
      reads as `value`. */
  ghost predicate IsFirstCheckedRaise<T, K>(xs: seq<T>, attr: T -> Result<K>, value: K, e: Error) {
    exists i | 0 <= i < |xs| :: CheckedRaiseAt(xs, attr, value, i) && attr(xs[i]).error == e
  }

  /** Every attribute of `xs` was read without raising, and none is `value`. */
  ghost predicate NoCheckedMatch<T, K>(xs: seq<T>, attr: T -> Result<K>, value: K) {
    forall i | 0 <= i < |xs| :: attr(xs[i]).Success? && attr(xs[i]).value != value
  }

  /** The position of the first item whose attribute equals `value`. */
  function FirstIndexWith<T, K(==)>(xs: seq<T>, attr: T -> K, value: K): (r: Option<nat>)
    ensures r.None? <==> forall i | 0 <= i < |xs| :: attr(xs[i]) != value
    ensures r.Some? ==> r.value < |xs| && attr(xs[r.value]) == value
    ensures r.Some? ==> forall j | 0 <= j < r.value :: attr(xs[j]) != value
  {
    if xs == [] then None
    else if attr(xs[0]) == value then Some(0)
    else match FirstIndexWith(xs[1..], attr, value)
      case None => None
      case Some(i) => Some(i + 1)
  }

  /** Like `FirstIndexWith`, for an attribute whose read can raise: the scan
      stops at the first item whose read raises, unless a match comes first. */
  function FirstIndexChecked<T, K(==)>(xs: seq<T>, attr: T -> Result<K>, value: K): (r: Result<Option<nat>>)
    ensures r.Success? && r.value.Some? ==> CheckedMatchAt(xs, attr, value, r.value.value)
    ensures r == Success(None) <==> NoCheckedMatch(xs, attr, value)
    ensures r.Failure? ==> IsFirstCheckedRaise(xs, attr, value, r.error)
    ensures forall i | CheckedMatchAt(xs, attr, value, i) :: r == Success(Some(i))
    ensures forall i | CheckedRaiseAt(xs, attr, value, i) :: r == Failure(attr(xs[i]).error)
  {
    if xs == [] then Success(None)
    else match attr(xs[0])
      case Failure(e) => Failure(e)
      case Success(k) =>
        if k == value then Success(Some(0))
        else
          var rest := xs[1..];
          assert forall i | 0 <= i < |rest| :: rest[i] == xs[i + 1];
          CheckedPositionsShift(xs, attr, value);
          match FirstIndexChecked(rest, attr, value)
          case Failure(e) => Failure(e)
          case Success(None) => Success(None)
          case Success(Some(i)) => Success(Some(i + 1))
  }

  /** Past a head that reads without raising and differs from `value`, a
      first match or first raise sits one position later in `xs` than in
      its tail. */
  lemma CheckedPositionsShift<T, K>(xs: seq<T>, attr: T -> Result<K>, value: K)
    requires xs != [] && attr(xs[0]).Success? && attr(xs[0]).value != value
    ensures forall i | CheckedMatchAt(xs, attr, value, i) :: i >= 1 && CheckedMatchAt(xs[1..], attr, value, i - 1)
    ensures forall i | CheckedRaiseAt(xs, attr, value, i) :: i >= 1 && CheckedRaiseAt(xs[1..], attr, value, i - 1)
  {
    var rest := xs[1..];
    forall i | CheckedMatchAt(xs, attr, value, i)
      ensures i >= 1 && CheckedMatchAt(rest, attr, value, i - 1)
    {
      assert forall j | 0 <= j < i - 1 :: rest[j] == xs[j + 1];
    }
    forall i | CheckedRaiseAt(xs, attr, value, i)
      ensures i >= 1 && CheckedRaiseAt(rest, attr, value, i - 1)
    {
      assert forall j | 0 <= j < i - 1 :: rest[j] == xs[j + 1];
    }
  }

  /** When no attribute read raises, the checked scan is the plain scan on
      the attribute values. */
  lemma {:induction false} CheckedScanOfTotal<T, K>(xs: seq<T>, attr: T -> Result<K>, total: T -> K, value: K)
    requires forall i | 0 <= i < |xs| :: attr(xs[i]) == Success(total(xs[i]))
    ensures FirstIndexChecked(xs, attr, value) == Success(FirstIndexWith(xs, total, value))
  {
    if xs != [] && total(xs[0]) != value {
      var rest := xs[1..];
      assert forall i | 0 <= i < |rest| :: rest[i] == xs[i + 1];
      CheckedScanOfTotal(rest, attr, total, value);
    }
  }

  /** When every read that raises raises the same error, a scan that raises
      raises that error. */
  lemma FirstIndexCheckedRaises<T, K>(xs: seq<T>, attr: T -> Result<K>, value: K, e: Error)
    requires forall i | 0 <= i < |xs| :: attr(xs[i]).Failure? ==> attr(xs[i]).error == e
    requires FirstIndexChecked(xs, attr, value).Failure?
    ensures FirstIndexChecked(xs, attr, value).error == e
  {
  }

  /** `get_object_from_list`: the first item, in list order, whose attribute
      equals `value`, or `None` when there is none. */
  function FirstWith<T, K(==)>(xs: seq<T>, attr: T -> K, value: K): (r: Option<T>)
    ensures r.None? <==> forall i | 0 <= i < |xs| :: attr(xs[i]) != value
    ensures r.Some? ==> IsFirstMatch(xs, attr, value, r.value)
  {
    match FirstIndexWith(xs, attr, value)
    case None => None
    case Some(i) => Some(xs[i])
  }

  /** `get_all_objects_from_list`: the items whose attribute equals `value`,
      in list order. */
  function AllWith<T, K(==)>(xs: seq<T>, attr: T -> K, value: K): (r: seq<T>)
    ensures forall i | 0 <= i < |r| :: attr(r[i]) == value
    ensures forall i | 0 <= i < |xs| && attr(xs[i]) == value :: xs[i] in r
    ensures forall x | x in r :: x in xs
    ensures forall x | x in xs :: multiset(r)[x] == if attr(x) == value then multiset(xs)[x] else 0
    ensures SubsequenceOf(r, xs)
    ensures Filtered(r, xs, attr, value)
  {
    if xs == [] then []
    else
      var rest := AllWith(xs[1..], attr, value);
      AllWithStepMembers(xs, attr, value, rest);
      AllWithStepFiltered(xs, attr, value, rest);
      if attr(xs[0]) == value then [xs[0]] + rest else rest
  }

  /** Putting the head back in front of the items selected from the tail,
      when it matches, keeps every matching item and adds no other. */
  lemma AllWithStepMembers<T, K>(xs: seq<T>, attr: T -> K, value: K, rest: seq<T>)
    requires xs != []
    requires forall i | 0 <= i < |xs[1..]| && attr(xs[1..][i]) == value :: xs[1..][i] in rest
    requires forall x | x in rest :: x in xs[1..]
    ensures var r := if attr(xs[0]) == value then [xs[0]] + rest else rest;
      && (forall i | 0 <= i < |xs| && attr(xs[i]) == value :: xs[i] in r)
      && (forall x | x in r :: x in xs)
  {
    var r := if attr(xs[0]) == value then [xs[0]] + rest else rest;
    forall i | 0 <= i < |xs| && attr(xs[i]) == value
      ensures xs[i] in r
    {
      if i > 0 {
        assert xs[i] == xs[1..][i - 1];
      }
    }
  }

  /** Putting the head back in front of the items selected from the tail,
      when it matches, selects from the whole list. */
  lemma AllWithStepFiltered<T, K>(xs: seq<T>, attr: T -> K, value: K, rest: seq<T>)
    requires xs != []
    requires Filtered(rest, xs[1..], attr, value)
    ensures Filtered(if attr(xs[0]) == value then [xs[0]] + rest else rest, xs, attr, value)
  {
    SubsequenceCounts(rest, xs[1..]);
    AllWithStepCounts(xs, attr, value, rest);
    AllWithStepOrder(xs, attr, value, rest);
  }

  /** The multiplicities after putting a matching head back. */
  lemma AllWithStepCounts<T, K>(xs: seq<T>, attr: T -> K, value: K, rest: seq<T>)
    requires xs != []
    requires multiset(rest) <= multiset(xs[1..])
    requires forall x | x in xs[1..] :: multiset(rest)[x] == if attr(x) == value then multiset(xs[1..])[x] else 0
    ensures var r := if attr(xs[0]) == value then [xs[0]] + rest else rest;
      forall x | x in xs :: multiset(r)[x] == if attr(x) == value then multiset(xs)[x] else 0
  {
    var h, t := xs[0], xs[1..];
    var r := if attr(h) == value then [h] + rest else rest;
    assert xs == [h] + t;
    assert multiset(xs) == multiset{h} + multiset(t);
    assert multiset(r) == if attr(h) == value then multiset{h} + multiset(rest) else multiset(rest);
    forall x | x in xs
      ensures multiset(r)[x] == if attr(x) == value then multiset(xs)[x] else 0
    {
      if x !in t {
        assert multiset(t)[x] == 0;
      }
    }
  }

  /** The order after putting a matching head back. */
  lemma AllWithStepOrder<T, K>(xs: seq<T>, attr: T -> K, value: K, rest: seq<T>)
    requires xs != []
    requires forall i | 0 <= i < |rest| :: attr(rest[i]) == value
    requires SubsequenceOf(rest, xs[1..])
    ensures var r := if attr(xs[0]) == value then [xs[0]] + rest else rest;
      && (forall i | 0 <= i < |r| :: attr(r[i]) == value)
      && SubsequenceOf(r, xs)
  {
    var r := if attr(xs[0]) == value then [xs[0]] + rest else rest;
    if attr(xs[0]) == value {
      assert r[1..] == rest;
    } else if rest != [] {
      assert rest[0] != xs[0];
    }
  }

  /** Only one list is `Filtered` from `xs`: the one `AllWith` computes. */
  lemma {:induction false} FilteredIsAllWith<T, K>(r: seq<T>, xs: seq<T>, attr: T -> K, value: K)
    requires Filtered(r, xs, attr, value)
    ensures r == AllWith(xs, attr, value)
    decreases |xs|
  {
    if xs != [] {
      var h, t := xs[0], xs[1..];
      assert xs == [h] + t;
      assert multiset(xs) == multiset{h} + multiset(t);
      if r != [] && r[0] == h {
        var rt := r[1..];
        assert r == [h] + rt;
        assert multiset(r) == multiset{h} + multiset(rt);
        assert attr(h) == value;
        forall x | x in t
          ensures multiset(rt)[x] == if attr(x) == value then multiset(t)[x] else 0
        {
          assert x in xs;
        }
        assert forall i | 0 <= i < |rt| :: attr(rt[i]) == attr(r[i + 1]);
        FilteredIsAllWith(rt, t, attr, value);
      } else {
        assert SubsequenceOf(r, t);
        if attr(h) == value {
          assert multiset(r)[h] == multiset(xs)[h] == multiset(t)[h] + 1;
          SubsequenceCounts(r, t);
          assert false;
        }
        forall x | x in t
          ensures multiset(r)[x] == if attr(x) == value then multiset(t)[x] else 0
        {
          assert x in xs;
          if attr(x) == value {
            assert x != h;
          }
        }
        FilteredIsAllWith(r, t, attr, value);
      }
    }
  }

  /** A list comprehension whose element expression can raise: every
      result, in order, or the error of the first element whose expression
      raised. */
  function MapAll<T, U>(xs: seq<T>, f: T -> Result<U>): (r: Result<seq<U>>)
    ensures r.Success? <==> forall i | 0 <= i < |xs| :: f(xs[i]).Success?
    ensures r.Success? ==> |r.value| == |xs| && forall i | 0 <= i < |xs| :: r.value[i] == f(xs[i]).value
    ensures r.Failure? ==> exists i | 0 <= i < |xs| ::
      f(xs[i]) == Failure(r.error) && forall j | 0 <= j < i :: f(xs[j]).Success?
  {
    if xs == [] then Success([])
    else match f(xs[0])
      case Failure(e) => Failure(e)
      case Success(y) =>
        var rest := xs[1..];
        assert forall i | 0 <= i < |rest| :: rest[i] == xs[i + 1];
        match MapAll(rest, f)
        case Failure(e) =>
          assert exists i | 0 <= i < |rest| ::
            f(rest[i]) == Failure(e) && forall j | 0 <= j < i :: f(rest[j]).Success?;
          Failure(e)
        case Success(ys) => Success([y] + ys)
  }

  /** When some item matches, the first match is the head of all matches;
      otherwise the list of matches is empty. */
  lemma FirstIsHeadOfAll<T, K>(xs: seq<T>, attr: T -> K, value: K)
    ensures FirstWith(xs, attr, value).None? <==> AllWith(xs, attr, value) == []
    ensures FirstWith(xs, attr, value).Some? ==>
      FirstWith(xs, attr, value).value == AllWith(xs, attr, value)[0]
  {
    if xs != [] && attr(xs[0]) != value {
      FirstIsHeadOfAll(xs[1..], attr, value);
      assert FirstIndexWith(xs, attr, value).None? <==> FirstIndexWith(xs[1..], attr, value).None?;
    }
  }

  /** Filtering commutes with a map that keeps the attribute: filtering the
      mapped list gives the map of the filtered one. */
  lemma {:induction false} AllWithOfMap<T, U, K>(xs: seq<T>, ys: seq<U>, f: T -> U,
                                                 attrT: T -> K, attrU: U -> K, value: K)
    requires |ys| == |xs|
    requires forall i | 0 <= i < |xs| :: ys[i] == f(xs[i]) && attrU(ys[i]) == attrT(xs[i])
    ensures |AllWith(ys, attrU, value)| == |AllWith(xs, attrT, value)|
    ensures forall i | 0 <= i < |AllWith(xs, attrT, value)| ::
      AllWith(ys, attrU, value)[i] == f(AllWith(xs, attrT, value)[i])
    decreases |xs|
  {
    if xs != [] {
      AllWithOfMap(xs[1..], ys[1..], f, attrT, attrU, value);
      var a, b := AllWith(xs[1..], attrT, value), AllWith(ys[1..], attrU, value);
      var ra, rb := AllWith(xs, attrT, value), AllWith(ys, attrU, value);
      assert ra == if attrT(xs[0]) == value then [xs[0]] + a else a;
      assert rb == if attrU(ys[0]) == value then [ys[0]] + b else b;
      if attrT(xs[0]) == value {
        forall i | 0 <= i < |ra|
          ensures rb[i] == f(ra[i])
        {
          if i > 0 {
            assert ra[i] == a[i - 1] && rb[i] == b[i - 1];
          }
        }
      } else {
        assert ra == a && rb == b;
      }
    }
  }
}
