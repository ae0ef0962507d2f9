/** Failure-carrying values shared by every component. */
module Outcomes {
  datatype Option<+T> = None | Some(value: T) {
    function GetOr(default: T): T {
      if Some? then value else default
    }
  }

  datatype Result<+T, +E> = Ok(value: T) | Err(error: E)
}

/** Machine integers that the service relies on, with their saturating operations. */
module MachineInts {
  const U8_RANGE := 0x100
  const U32_MAX := 0xFFFF_FFFF
  const U64_RANGE := 0x1_0000_0000_0000_0000
  const U64_MAX := 0xFFFF_FFFF_FFFF_FFFF
  const I64_MIN := -0x8000_0000_0000_0000
  const I64_MAX := 0x7FFF_FFFF_FFFF_FFFF

  type U8 = n: nat | n < 0x100
  type U32 = n: nat | n <= 0xFFFF_FFFF
  type U64 = n: nat | n <= 0xFFFF_FFFF_FFFF_FFFF

  function SaturatingAddU32(a: U32, b: U32): U32 {
    if a + b > U32_MAX then U32_MAX else a + b
  }

  function SaturatingSub(a: nat, b: nat): nat {
    if a < b then 0 else a - b
  }

  function Min(a: int, b: int): int {
    if a <= b then a else b
  }

  function Max(a: int, b: int): int {
    if a >= b then a else b
  }
}

/** Sizes of finite sets. */
module Sets {
  lemma {:induction false} SubsetSize<T>(a: set<T>, b: set<T>)
    requires a <= b
    ensures |a| <= |b|
  {
    if a != {} {
      var x :| x in a;
      SubsetSize(a - {x}, b - {x});
    }
  }
}

/** Keys in the order of their use: days, minutes and their like. */
module KeyOrder {
  /** No key recurs after another one. */
  ghost predicate NeverReturns<T(!new)>(keys: seq<T>) {
    forall i, j, k :: 0 <= i < j < k < |keys| && keys[i] == keys[k] ==> keys[j] == keys[i]
  }

  function Count<T(==)>(keys: seq<T>, x: T): nat {
    if keys == [] then 0
    else Count(keys[..|keys| - 1], x) + if keys[|keys| - 1] == x then 1 else 0
  }

  /** How often a key is turned to, from nothing or from another key. */
  function Turns<T(==)>(keys: seq<T>, x: T): nat {
    if keys == [] then 0
    else
      var before, last := keys[..|keys| - 1], keys[|keys| - 1];
      Turns(before, x) + if last == x && (before == [] || before[|before| - 1] != x) then 1 else 0
  }

  /** The key was used and then left. */
  ghost predicate WasLeft<T>(keys: seq<T>, x: T) {
    exists i, j :: 0 <= i < j < |keys| && keys[i] == x && keys[j] != x
  }

  lemma PrefixNeverReturns<T(!new)>(before: seq<T>, last: T)
    requires NeverReturns(before + [last])
    ensures NeverReturns(before) && !WasLeft(before, last)
  {
    var keys := before + [last];
    forall i, j, k | 0 <= i < j < k < |before| && before[i] == before[k] ensures before[j] == before[i] {
      assert keys[i] == keys[k] && keys[j] == before[j];
    }
    forall i, j | 0 <= i < j < |before| && before[i] == last ensures before[j] == last {
      assert keys[i] == keys[|before|] && keys[j] == before[j];
    }
  }

  lemma {:induction false} UsedIsTurnedTo<T>(keys: seq<T>, x: T)
    requires x in keys
    ensures Turns(keys, x) >= 1
  {
    var before, last := keys[..|keys| - 1], keys[|keys| - 1];
    if x in before {
      UsedIsTurnedTo(before, x);
    } else {
      assert keys == before + [last];
    }
  }

  lemma {:induction false} ReturningIsTurningTwice<T>(keys: seq<T>, i: nat, j: nat, k: nat)
    requires i < j < k < |keys| && keys[i] == keys[k] != keys[j]
    ensures Turns(keys, keys[i]) >= 2
    decreases |keys|
  {
    var before := keys[..|keys| - 1];
    if k < |before| {
      ReturningIsTurningTwice(before, i, j, k);
    } else if before[|before| - 1] == keys[i] {
      ReturningIsTurningTwice(before, i, j, |before| - 1);
    } else {
      assert before[i] in before;
      UsedIsTurnedTo(before, keys[i]);
    }
  }
}

/** Floating-point helpers over exact reals. */
module Reals {
  function MinReal(a: real, b: real): real {
    if a <= b then a else b
  }

  function MaxReal(a: real, b: real): real {
    if a >= b then a else b
  }

  function Abs(x: real): real {
    if x < 0.0 then -x else x
  }

  /** clamp(0, 1) */
  function Unit(x: real): real {
    if x < 0.0 then 0.0 else if x > 1.0 then 1.0 else x
  }

  lemma ProductSign(x: real, y: real)
    requires x >= 0.0 && y >= 0.0
    ensures x * y >= 0.0
  {
  }

  lemma ScaleMono(k: real, x: real, y: real)
    requires k >= 0.0 && x <= y
    ensures k * x <= k * y
  {
    ProductSign(k, y - x);
    assert k * (y - x) == k * y - k * x;
  }

  lemma StrictProduct(x: real, y: real)
    requires x > 0.0 && y > 0.0
    ensures x * y > 0.0
  {
  }

  lemma Cancel(x: real, y: real, k: real)
    requires k > 0.0 && x * k <= y * k
    ensures x <= y
  {
    if x > y {
      StrictProduct(x - y, k);
    }
  }

  lemma ScaledWithin(c: real, d: real) returns (p: real)
    requires 0.0 <= c <= 1.0 && 0.0 <= d <= 1.0
    ensures p == c * d && 0.0 <= p <= c && p <= d
  {
    p := c * d;
    ProductSign(c, d);
    ProductSign(c, 1.0 - d);
    ProductSign(d, 1.0 - c);
    assert c * (1.0 - d) == c - p;
    assert d * (1.0 - c) == d - p;
  }

  /** A convex combination, as a shift from its second end. */
  lemma Mix(b: real, f: real, c: real) returns (shift: real)
    requires 0.0 <= b <= 1.0 && 0.0 <= f <= 1.0 && 0.0 <= c <= 1.0
    ensures c * f + (1.0 - c) * b == b + shift
    ensures Abs(shift) <= c
    ensures f >= b ==> 0.0 <= shift <= f - b
    ensures f < b ==> f - b <= shift <= 0.0
  {
    if f >= b {
      shift := ScaledWithin(c, f - b);
      assert c * (f - b) == c * f - c * b;
    } else {
      var q := ScaledWithin(c, b - f);
      assert c * (b - f) == c * b - c * f;
      shift := -q;
    }
  }
}

/** The standard library's stable sort, for any total preorder. */
module Sorting {
  ghost predicate Preorder<T(!new)>(before: (T, T) -> bool) {
    && (forall x, y :: before(x, y) || before(y, x))
    && (forall x, y, z :: before(x, y) && before(y, z) ==> before(x, z))
  }

  ghost predicate Ordered<T>(before: (T, T) -> bool, s: seq<T>) {
    forall i, j :: 0 <= i < j < |s| ==> before(s[i], s[j])
  }

  function Insert<T>(before: (T, T) -> bool, x: T, s: seq<T>): seq<T> {
    if s == [] || before(x, s[0]) then [x] + s else [s[0]] + Insert(before, x, s[1..])
  }

  /** sort_by: elements that compare equal keep their order. */
  function Sort<T>(before: (T, T) -> bool, s: seq<T>): seq<T> {
    if s == [] then [] else Insert(before, s[0], Sort(before, s[1..]))
  }

  lemma {:induction false} InsertKeeps<T>(before: (T, T) -> bool, x: T, s: seq<T>)
    ensures multiset(Insert(before, x, s)) == multiset(s) + multiset{x}
  {
    if s != [] && !before(x, s[0]) {
      InsertKeeps(before, x, s[1..]);
      assert s == [s[0]] + s[1..];
    }
  }

  lemma {:induction false} InsertOrders<T(!new)>(before: (T, T) -> bool, x: T, s: seq<T>)
    requires Preorder(before) && Ordered(before, s)
    ensures Ordered(before, Insert(before, x, s))
  {
    if s != [] && !before(x, s[0]) {
      var rest := Insert(before, x, s[1..]);
      InsertOrders(before, x, s[1..]);
      InsertKeeps(before, x, s[1..]);
      forall j | 0 <= j < |rest| ensures before(s[0], rest[j]) {
        assert rest[j] in multiset(rest);
        if rest[j] != x {
          assert rest[j] in multiset(s[1..]);
        }
      }
    }
  }

  lemma {:induction false} SortKeeps<T>(before: (T, T) -> bool, s: seq<T>)
    ensures multiset(Sort(before, s)) == multiset(s)
    ensures |Sort(before, s)| == |s|
  {
    if s != [] {
      SortKeeps(before, s[1..]);
      InsertKeeps(before, s[0], Sort(before, s[1..]));
      assert s == [s[0]] + s[1..];
    }
    assert |multiset(Sort(before, s))| == |multiset(s)|;
  }

  lemma {:induction false} SortOrders<T(!new)>(before: (T, T) -> bool, s: seq<T>)
    requires Preorder(before)
    ensures Ordered(before, Sort(before, s))
  {
    if s != [] {
      SortOrders(before, s[1..]);
      InsertOrders(before, s[0], Sort(before, s[1..]));
    }
  }
}
