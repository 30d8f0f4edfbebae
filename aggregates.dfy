/**
 * The per-restaurant aggregates the bot maintains with store transactions
 * (bot.py, add_order_to_restaurant, remove_order_from_restaurant,
 * increment_rest_orders_count) and the transaction the price step of the
 * "add existing food" flow runs on a restaurant's dish list.
 *
 * A transaction function receives the node's current value (Null when the
 * node is absent) and either commits a new value (Commit(Null) deletes the
 * node) or raises, which aborts the transaction and leaves the node as it
 * was. The store runs each transaction atomically, re-running the function
 * on contention, so its effect is exactly one application of the function.
 */
module Aggregates {
  import opened Wrappers
  import opened Text
  import opened Numerals
  import opened Json
  import opened KeyOrder

  datatype Txn = Commit(value: Value) | Abort

  /** The node's value once the transaction is applied. */
  function Outcome(current: Value, t: Txn): (v: Value)
    ensures t.Commit? ==> v == t.value
    ensures t.Abort? ==> v == current
  {
    if t.Commit? then t.value else current
  }

  /** list(d.values()), in the order the store delivers the children. */
  function ValuesInKeyOrder(m: map<string, Value>): (vs: seq<Value>)
    ensures |vs| == |m|
    ensures forall i :: 0 <= i < |vs| ==> vs[i] == m[SortedKeys(m)[i]]
    ensures forall v :: v in vs <==> v in m.Values
  {
    var ks := SortedKeys(m);
    var vs := seq(|ks|, i requires 0 <= i < |ks| => m[ks[i]]);
    ValuesCovered(m, ks, vs);
    vs
  }

  /** Listing a value under each key lists every value of the map, and nothing else. */
  lemma ValuesCovered(m: map<string, Value>, ks: seq<string>, vs: seq<Value>)
    requires forall k :: k in ks <==> k in m
    requires |vs| == |ks| && forall i :: 0 <= i < |ks| ==> vs[i] == m[ks[i]]
    ensures forall v :: v in vs <==> v in m.Values
  {
    forall v | v in m.Values
      ensures v in vs
    {
      var k :| k in m && m[k] == v;
      var i :| 0 <= i < |ks| && ks[i] == k;
      assert vs[i] == v;
    }
  }

  /** The number of occurrences of x in xs. */
  function Occurrences(xs: seq<Value>, x: Value): nat
    decreases |xs|
  {
    if xs == [] then 0 else (if xs[0] == x then 1 else 0) + Occurrences(xs[1..], x)
  }

  lemma OccurrencesPositive(xs: seq<Value>, x: Value)
    ensures Occurrences(xs, x) > 0 <==> x in xs
  {
    if xs != [] {
      OccurrencesPositive(xs[1..], x);
      assert xs == [xs[0]] + xs[1..];
    }
  }

  lemma {:induction false} OccurrencesAppend(xs: seq<Value>, a: Value, y: Value)
    ensures Occurrences(xs + [a], y) == Occurrences(xs, y) + (if a == y then 1 else 0)
    decreases |xs|
  {
    if xs != [] {
      assert (xs + [a])[1..] == xs[1..] + [a];
      OccurrencesAppend(xs[1..], a, y);
    }
  }

  /** `if x not in xs: xs.append(x)` */
  function AppendIfAbsent(xs: seq<Value>, x: Value): (r: seq<Value>)
    ensures x in r && |xs| <= |r| && r[..|xs|] == xs
    ensures x in xs ==> r == xs
    ensures x !in xs ==> r == xs + [x]
  {
    if x in xs then xs else xs + [x]
  }

  /**
   * Appending when absent keeps the old list as a prefix, makes x present,
   * leaves x at most once when it was there at most once, and does not
   * touch the counts of other values.
   */
  lemma AppendIfAbsentSpec(xs: seq<Value>, x: Value)
    ensures x in AppendIfAbsent(xs, x)
    ensures |xs| <= |AppendIfAbsent(xs, x)| <= |xs| + 1
    ensures AppendIfAbsent(xs, x)[..|xs|] == xs
    ensures Occurrences(AppendIfAbsent(xs, x), x) == if x in xs then Occurrences(xs, x) else 1
    ensures forall y :: y != x ==> Occurrences(AppendIfAbsent(xs, x), y) == Occurrences(xs, y)
  {
    OccurrencesPositive(xs, x);
    forall y {
      OccurrencesAppend(xs, x, y);
    }
    var ys := AppendIfAbsent(xs, x);
    if x !in xs {
      assert ys[..|xs|] == xs;
    }
  }

  /** The transaction of add_order_to_restaurant on the restaurant's `orders` node. */
  function AddOrderTxn(current: Value, orderId: string): (t: Txn)
    ensures t.Abort? <==> !(current.Null? || current.Obj? || current.Arr? ||
                            (current.Str? && Contains(current.s, orderId)))
    ensures t.Commit? && !current.Str? ==> t.value.Arr? && Str(orderId) in t.value.items
    ensures current.Str? && t.Commit? ==> t.value == current
  {
    match current
    case Null => Commit(Arr([Str(orderId)]))
    case Obj(m) => Commit(Arr(AppendIfAbsent(ValuesInKeyOrder(m), Str(orderId))))
    case Arr(xs) => Commit(Arr(AppendIfAbsent(xs, Str(orderId))))
    // `order_id not in s` is a substring test; s.append then raises
    case Str(s) => if Contains(s, orderId) then Commit(current) else Abort
    // `in` on a number raises
    case _ => Abort
  }

  /**
   * On a list (or an absent node) the transaction commits a list that holds
   * the order id exactly once when it held it at most once, keeps every
   * other entry and its multiplicity, and keeps the old list as a prefix.
   */
  lemma {:induction false} AddOrderRecords(current: Value, orderId: string)
    requires current.Null? || current.Arr?
    requires current.Arr? ==> Occurrences(current.items, Str(orderId)) <= 1
    ensures AddOrderTxn(current, orderId).Commit?
    ensures AddOrderTxn(current, orderId).value.Arr?
    ensures Occurrences(AddOrderTxn(current, orderId).value.items, Str(orderId)) == 1
    ensures current.Arr? ==> AddOrderTxn(current, orderId).value.items[..|current.items|] == current.items
    ensures current.Arr? ==> forall y :: y != Str(orderId) ==>
              Occurrences(AddOrderTxn(current, orderId).value.items, y) == Occurrences(current.items, y)
  {
    if current.Arr? {
      AppendIfAbsentSpec(current.items, Str(orderId));
      OccurrencesPositive(current.items, Str(orderId));
    } else {
      assert [Str(orderId)][..0] == [];
    }
  }

  /** A keyed node is first read as the list of its children. */
  lemma AddOrderNormalises(m: map<string, Value>, orderId: string)
    ensures AddOrderTxn(Obj(m), orderId) == AddOrderTxn(Arr(ValuesInKeyOrder(m)), orderId)
  {
  }

  /** Adding an order id already on the list changes nothing. */
  lemma AddOrderIdempotent(xs: seq<Value>, orderId: string)
    requires Str(orderId) in xs
    ensures AddOrderTxn(Arr(xs), orderId) == Commit(Arr(xs))
  {
  }

  /** [o for o in xs if o != x] */
  function Without(xs: seq<Value>, x: Value): (ys: seq<Value>)
    ensures |ys| <= |xs|
    ensures forall y :: y in ys <==> y in xs && y != x
    decreases |xs|
  {
    if xs == [] then [] else (if xs[0] == x then [] else [xs[0]]) + Without(xs[1..], x)
  }

  /** a can be obtained from b by deleting entries. */
  predicate IsSubsequence(a: seq<Value>, b: seq<Value>)
    decreases |b|
  {
    a == [] || (b != [] && (if a[0] == b[0] then IsSubsequence(a[1..], b[1..]) else IsSubsequence(a, b[1..])))
  }

  /**
   * Filtering removes every copy of x, keeps the other entries in their
   * order, and keeps the count of every other value.
   */
  lemma {:induction false} WithoutSpec(xs: seq<Value>, x: Value)
    ensures x !in Without(xs, x)
    ensures IsSubsequence(Without(xs, x), xs)
    ensures forall y :: y != x ==> Occurrences(Without(xs, x), y) == Occurrences(xs, y)
    decreases |xs|
  {
    if xs != [] {
      WithoutSpec(xs[1..], x);
      var rest := Without(xs[1..], x);
      if xs[0] != x {
        assert ([xs[0]] + rest)[1..] == rest;
      } else {
        assert Without(xs, x) == rest;
        if rest != [] {
          assert rest[0] in rest;
        }
      }
    }
  }

  /** Filtering keeps a list without repeats free of repeats. */
  lemma {:induction false} WithoutNoDuplicates(xs: seq<Value>, x: Value)
    requires NoDuplicates(xs)
    ensures NoDuplicates(Without(xs, x))
    decreases |xs|
  {
    if xs != [] {
      var tail := xs[1..];
      assert NoDuplicates(tail) by {
        forall i, j | 0 <= i < j < |tail|
          ensures tail[i] != tail[j]
        {
          assert tail[i] == xs[i + 1] && tail[j] == xs[j + 1];
        }
      }
      WithoutNoDuplicates(tail, x);
      var rest := Without(tail, x);
      if xs[0] != x {
        assert xs[0] !in tail by {
          forall j | 0 <= j < |tail|
            ensures tail[j] != xs[0]
          {
            assert tail[j] == xs[j + 1];
          }
        }
        var ys := [xs[0]] + rest;
        forall i, j | 0 <= i < j < |ys|
          ensures ys[i] != ys[j]
        {
          if i == 0 {
            assert ys[j] == rest[j - 1] && ys[j] in rest;
          } else {
            assert ys[i] == rest[i - 1] && ys[j] == rest[j - 1];
          }
        }
      }
    }
  }

  /** Filtering out a value that is not there changes nothing. */
  lemma WithoutAbsent(xs: seq<Value>, x: Value)
    requires x !in xs
    ensures Without(xs, x) == xs
  {
    if xs != [] {
      WithoutAbsent(xs[1..], x);
      assert xs == [xs[0]] + xs[1..];
    }
  }

  lemma WithoutAppend(xs: seq<Value>, x: Value)
    ensures Without(xs + [x], x) == Without(xs, x)
  {
    if xs != [] {
      assert (xs + [x])[1..] == xs[1..] + [x];
      WithoutAppend(xs[1..], x);
    }
  }

  /** The characters of a string, each as a one-character string (iterating a str). */
  function Chars(s: string): (vs: seq<Value>)
    ensures |vs| == |s|
    ensures forall i :: 0 <= i < |s| ==> vs[i] == Str([s[i]])
  {
    seq(|s|, i requires 0 <= i < |s| => Str([s[i]]))
  }

  /** The transaction of remove_order_from_restaurant. */
  function RemoveOrderTxn(current: Value, orderId: string): (t: Txn)
    ensures t.Abort? <==> Truthy(current) && !(current.Obj? || current.Arr? || current.Str?)
    ensures !Truthy(current) ==> t == Commit(Null)
    ensures t.Commit? && Truthy(current) ==> t.value.Arr? && Str(orderId) !in t.value.items
    ensures current.Arr? && Truthy(current) ==>
              forall y :: y in t.value.items <==> y in current.items && y != Str(orderId)
  {
    if !Truthy(current) then Commit(Null)
    else match current
      case Obj(m) => Commit(Arr(Without(ValuesInKeyOrder(m), Str(orderId))))
      case Arr(xs) => Commit(Arr(Without(xs, Str(orderId))))
      case Str(s) => Commit(Arr(Without(Chars(s), Str(orderId))))
      // iterating a number raises
      case _ => Abort
  }

  /**
   * Removing commits, on any list, a list without the order id whose other
   * entries are the old ones in their order; an empty or absent node is deleted.
   */
  lemma RemoveOrderRecords(current: Value, orderId: string)
    requires current.Null? || current.Arr?
    ensures RemoveOrderTxn(current, orderId).Commit?
    ensures !Truthy(current) ==> RemoveOrderTxn(current, orderId).value == Null
    ensures Truthy(current) ==> RemoveOrderTxn(current, orderId).value.Arr?
    ensures Truthy(current) ==> Str(orderId) !in RemoveOrderTxn(current, orderId).value.items
    ensures Truthy(current) ==> IsSubsequence(RemoveOrderTxn(current, orderId).value.items, current.items)
    ensures Truthy(current) ==> forall y :: y != Str(orderId) ==>
              Occurrences(RemoveOrderTxn(current, orderId).value.items, y) == Occurrences(current.items, y)
  {
    if Truthy(current) {
      WithoutSpec(current.items, Str(orderId));
    }
  }

  /** Removing an order id that was just added to a list restores the list. */
  lemma AddThenRemove(xs: seq<Value>, orderId: string)
    requires Str(orderId) !in xs
    ensures RemoveOrderTxn(AddOrderTxn(Arr(xs), orderId).value, orderId) == Commit(Arr(xs))
  {
    WithoutAppend(xs, Str(orderId));
    WithoutAbsent(xs, Str(orderId));
  }

  /** int(x) rounded toward zero, as Python truncates a float. */
  function TruncReal(r: real): (n: int)
    ensures r >= 0.0 ==> n as real <= r < n as real + 1.0
    ensures r < 0.0 ==> n as real - 1.0 < r <= n as real
  {
    if r >= 0.0 then r.Floor else -((-r).Floor)
  }

  /** Python's int(v): None when it raises. */
  function PyInt(v: Value): (r: Option<int>)
    ensures v.Int? ==> r == Some(v.i)
    ensures v.Bool? ==> r == Some(if v.b then 1 else 0)
    ensures v.Num? ==> r == Some(TruncReal(v.r))
    ensures v.Str? ==> r == ParseIntLiteral(v.s)
    ensures v.Null? || v.Arr? || v.Obj? ==> r.None?
  {
    match v
    case Int(i) => Some(i)
    case Bool(b) => Some(if b then 1 else 0)
    case Num(r) => Some(TruncReal(r))
    case Str(s) => ParseIntLiteral(s)
    case _ => None
  }

  /** The transaction of increment_rest_orders_count on the `orders_count` node. */
  function IncrementTxn(current: Value, delta: int): (t: Txn)
    ensures current.Null? ==> t == Commit(Int(delta))
    ensures current.Int? ==> t == Commit(Int(current.i + delta))
    ensures t.Commit? ==> t.value.Int?
  {
    var base := if current.Null? then Int(0) else current;
    match PyInt(base)
    case None => Abort
    case Some(n) => Commit(Int(n + delta))
  }

  /** A counter stored as a decimal string is read and replaced by a number. */
  lemma IncrementReadsDecimalString(i: int, delta: int)
    ensures IncrementTxn(Str(IntToString(i)), delta) == Commit(Int(i + delta))
  {
    IntRoundTrip(i);
  }

  function Sum(ds: seq<int>): int
    decreases |ds|
  {
    if ds == [] then 0 else ds[0] + Sum(ds[1..])
  }

  /** One operation on a restaurant's aggregates, each run as its own transaction. */
  datatype AggregateOp = AddOrder(orderId: string) | RemoveOrder(orderId: string) | Increment(delta: int)

  /** The restaurant's (orders, orders_count) after running ops one after the other. */
  function ApplyOps(orders: Value, count: Value, ops: seq<AggregateOp>): (Value, Value)
    decreases |ops|
  {
    if ops == [] then (orders, count)
    else match ops[0]
      case AddOrder(oid) => ApplyOps(Outcome(orders, AddOrderTxn(orders, oid)), count, ops[1..])
      case RemoveOrder(oid) => ApplyOps(Outcome(orders, RemoveOrderTxn(orders, oid)), count, ops[1..])
      case Increment(d) => ApplyOps(orders, Outcome(count, IncrementTxn(count, d)), ops[1..])
  }

  /** The order ids on the list after ops, when ids were there before: each addition inserts, each removal deletes. */
  function IdsAfter(ids: set<Value>, ops: seq<AggregateOp>): set<Value>
    decreases |ops|
  {
    if ops == [] then ids
    else match ops[0]
      case AddOrder(oid) => IdsAfter(ids + {Str(oid)}, ops[1..])
      case RemoveOrder(oid) => IdsAfter(ids - {Str(oid)}, ops[1..])
      case Increment(_) => IdsAfter(ids, ops[1..])
  }

  function Deltas(ops: seq<AggregateOp>): int
    decreases |ops|
  {
    if ops == [] then 0 else (if ops[0].Increment? then ops[0].delta else 0) + Deltas(ops[1..])
  }

  /** The entries of a stored list; an absent node holds none. */
  function Entries(v: Value): set<Value>
  {
    if v.Arr? then set x | x in v.items else {}
  }

  function CountOf(v: Value): int
  {
    if v.Int? then v.i else 0
  }

  predicate NoDuplicates(xs: seq<Value>)
  {
    forall i, j :: 0 <= i < j < |xs| ==> xs[i] != xs[j]
  }

  /**
   * However additions, removals and increments interleave, no update is
   * lost: the list holds each id at most once, exactly the ids the
   * additions and removals leave in their order, and the counter is its
   * start plus the sum of the increments.
   */
  lemma {:induction false} OpsLoseNothing(orders: Value, count: Value, ops: seq<AggregateOp>)
    requires ListWithoutRepeats(orders)
    requires count.Null? || count.Int?
    ensures var (o, c) := ApplyOps(orders, count, ops);
            ListWithoutRepeats(o) &&
            Entries(o) == IdsAfter(Entries(orders), ops) &&
            (c.Null? || c.Int?) &&
            CountOf(c) == CountOf(count) + Deltas(ops)
    decreases |ops|
  {
    if ops != [] {
      match ops[0]
      case AddOrder(oid) =>
        AddOrderStep(orders, oid);
        OpsLoseNothing(Outcome(orders, AddOrderTxn(orders, oid)), count, ops[1..]);
      case RemoveOrder(oid) =>
        RemoveOrderStep(orders, oid);
        OpsLoseNothing(Outcome(orders, RemoveOrderTxn(orders, oid)), count, ops[1..]);
      case Increment(d) =>
        OpsLoseNothing(orders, Outcome(count, IncrementTxn(count, d)), ops[1..]);
    }
  }

  /** A list without repeats. */
  predicate ListWithoutRepeats(v: Value)
  {
    v.Null? || (v.Arr? && NoDuplicates(v.items))
  }

  /** One addition keeps the list free of repeats and inserts the id. */
  lemma AddOrderStep(orders: Value, oid: string)
    requires ListWithoutRepeats(orders)
    ensures ListWithoutRepeats(Outcome(orders, AddOrderTxn(orders, oid)))
    ensures Entries(Outcome(orders, AddOrderTxn(orders, oid))) == Entries(orders) + {Str(oid)}
  {
    var o' := Outcome(orders, AddOrderTxn(orders, oid));
    if orders.Arr? {
      AppendIfAbsentSpec(orders.items, Str(oid));
      var ys := o'.items;
      forall i, j | 0 <= i < j < |ys|
        ensures ys[i] != ys[j]
      {
        if j == |orders.items| {
          assert ys[i] == orders.items[i];
        }
      }
      assert Entries(o') == Entries(orders) + {Str(oid)};
    } else {
      assert Entries(o') == {Str(oid)};
    }
  }

  /** One removal keeps the list free of repeats and deletes the id. */
  lemma RemoveOrderStep(orders: Value, oid: string)
    requires ListWithoutRepeats(orders)
    ensures ListWithoutRepeats(Outcome(orders, RemoveOrderTxn(orders, oid)))
    ensures Entries(Outcome(orders, RemoveOrderTxn(orders, oid))) == Entries(orders) - {Str(oid)}
  {
    if Truthy(orders) {
      WithoutNoDuplicates(orders.items, Str(oid));
    }
  }

  /** The counter reaches n after n increments of one from an absent node. */
  lemma CounterCountsIncrements(n: nat)
    ensures CountOf(ApplyOps(Null, Null, seq(n, _ => Increment(1))).1) == n
  {
    var ops := seq(n, _ => Increment(1));
    OpsLoseNothing(Null, Null, ops);
    DeltasOfOnes(n);
  }

  lemma {:induction false} DeltasOfOnes(n: nat)
    ensures Deltas(seq(n, _ => Increment(1))) == n
  {
    if n > 0 {
      var ops := seq(n, _ => Increment(1));
      assert ops[1..] == seq(n - 1, _ => Increment(1));
      DeltasOfOnes(n - 1);
    }
  }

  /**
   * `any(f["name"] == name for f in foods)`: Some(found), or None when a
   * step raises (an entry that is not a record, or a record or dish without
   * a name).
   */
  function NameTaken(foods: seq<Value>, name: Option<Value>): (r: Option<bool>)
    ensures r == Some(true) ==> name.Some? && HasName(foods, name.value)
    ensures r == Some(false) && name.Some? ==> !HasName(foods, name.value)
    ensures r.None? ==> !WellFormedFoods(foods) || (foods != [] && name.None?)
    decreases |foods|
  {
    if foods == [] then Some(false)
    else if !foods[0].Obj? || "name" !in foods[0].fields || name.None? then None
    else if foods[0].fields["name"] == name.value then Some(true)
    else
      var rest := NameTaken(foods[1..], name);
      NameTakenStep(foods, name.value);
      rest
  }

  /** Some entry carries the name exactly when the first does or a later one does. */
  lemma NameTakenStep(foods: seq<Value>, name: Value)
    requires foods != []
    ensures HasName(foods, name) <==> (foods[0].Obj? && Get(foods[0].fields, "name") == name) || HasName(foods[1..], name)
    ensures WellFormedFoods(foods) <==> foods[0].Obj? && "name" in foods[0].fields && WellFormedFoods(foods[1..])
  {
    var tail := foods[1..];
    if HasName(tail, name) {
      var i :| 0 <= i < |tail| && tail[i].Obj? && Get(tail[i].fields, "name") == name;
      assert foods[i + 1] == tail[i];
    }
    if HasName(foods, name) && !(foods[0].Obj? && Get(foods[0].fields, "name") == name) {
      var i :| 0 <= i < |foods| && foods[i].Obj? && Get(foods[i].fields, "name") == name;
      assert tail[i - 1] == foods[i];
    }
    if foods[0].Obj? && "name" in foods[0].fields && WellFormedFoods(tail) {
      forall i | 0 <= i < |foods|
        ensures foods[i].Obj? && "name" in foods[i].fields
      {
        if i > 0 { assert foods[i] == tail[i - 1]; }
      }
    }
    if WellFormedFoods(foods) {
      forall i | 0 <= i < |tail|
        ensures tail[i].Obj? && "name" in tail[i].fields
      {
        assert tail[i] == foods[i + 1];
      }
    }
  }

  /** Every entry is a record with a name. */
  predicate WellFormedFoods(foods: seq<Value>)
  {
    forall i :: 0 <= i < |foods| ==> foods[i].Obj? && "name" in foods[i].fields
  }

  /** Some entry carries this name. */
  predicate HasName(foods: seq<Value>, name: Value)
  {
    exists i :: 0 <= i < |foods| && foods[i].Obj? && Get(foods[i].fields, "name") == name
  }

  /** The transaction of the awaiting_food_price step on restaurants/<rid>/foods. */
  function AddFoodTxn(current: Value, food: Dict): (t: Txn)
    ensures current.Null? ==> t == Commit(Arr([Obj(food)]))
    ensures !(current.Null? || current.Arr?) ==> t.Abort?
    ensures current.Arr? && t.Commit? ==> t.value == current || t.value == Arr(current.items + [Obj(food)])
    ensures current.Arr? && t.Abort? ==> !WellFormedFoods(current.items) || "name" !in food
  {
    var name := if "name" in food then Some(food["name"]) else None;
    match current
    case Null => Commit(Arr([Obj(food)]))
    case Arr(xs) =>
      (match NameTaken(xs, name)
       case None => Abort
       case Some(true) => Commit(current)
       case Some(false) => Commit(Arr(xs + [Obj(food)]))) 
    case _ => Abort
  }

  /**
   * On a list of named dishes, a named dish is added unless one with the
   * same name is already there, in which case the list stays as it was.
   */
  lemma AddFoodRecords(current: Value, food: Dict)
    requires current.Null? || (current.Arr? && WellFormedFoods(current.items))
    requires "name" in food
    ensures AddFoodTxn(current, food).Commit?
    ensures current.Null? ==> AddFoodTxn(current, food).value == Arr([Obj(food)])
    ensures current.Arr? && HasName(current.items, food["name"]) ==>
              AddFoodTxn(current, food).value == current
    ensures current.Arr? && !HasName(current.items, food["name"]) ==>
              AddFoodTxn(current, food).value == Arr(current.items + [Obj(food)])
  {
  }

  /** A dish whose name is on the list is never added twice. */
  lemma AddFoodNoDuplicateName(xs: seq<Value>, food: Dict)
    requires WellFormedFoods(xs) && "name" in food
    ensures var after := Outcome(Arr(xs), AddFoodTxn(Arr(xs), food));
            after.Arr? && WellFormedFoods(after.items) && HasName(after.items, food["name"])
  {
    AddFoodRecords(Arr(xs), food);
    var ys := xs + [Obj(food)];
    if !HasName(xs, food["name"]) {
      assert ys[|xs|].Obj? && Get(ys[|xs|].fields, "name") == food["name"];
    }
  }
}
