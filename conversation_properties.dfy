/**
 * What the conversation promises: the guard chain is first-match, input
 * errors re-prompt without writing anything, a scheduled order is stored,
 * counted and given a job, and a registration is saved only when complete.
 */
module ConversationProperties {
  import opened Wrappers
  import opened Text
  import opened Numerals
  import opened Json
  import opened KeyOrder
  import opened StateStore
  import opened Aggregates
  import opened Jobs
  import opened Listing
  import opened BotWorld
  import opened TextHandler
  import opened Callbacks

  // ---------------------------------------------------------------- the chain is first-match

  /** The state flag the i-th guard tests first. */
  function Flag(i: nat): string
    requires i < GuardCount
  {
    ["add_food_mode", "awaiting_search", "editing_rest", "editing_rest", "awaiting_edit_search",
     "awaiting_food_data", "reg_rest_step", "add_flow", "add_rest", "add_food",
     "awaiting_food_price", "awaiting_schedule"][i]
  }

  /** A guard whose flag is not set passes the message on and writes nothing. */
  lemma UnflaggedGuardPasses(i: nat, w: World, u: UserId, st: Dict, raw: string, env: Env)
    requires i < GuardCount
    requires !Truthy(Get(st, Flag(i)))
    ensures Guard(i, w, u, st, raw, env) == Next(w)
  {
  }

  /** Guards whose flags are not set are passed over: the chain goes on from the next one unchanged. */
  lemma {:induction false} ChainSkips(i: nat, k: nat, w: World, u: UserId, st: Dict, raw: string, env: Env)
    requires i <= k <= GuardCount
    requires forall j :: i <= j < k ==> !Truthy(Get(st, Flag(j)))
    ensures Chain(i, w, u, st, raw, env) == Chain(k, w, u, st, raw, env)
    decreases k - i
  {
    if i < k {
      ChainStep(i, w, u, st, raw, env);
      ChainSkips(i + 1, k, w, u, st, raw, env);
    }
  }

  /** One guard passed over. */
  lemma ChainStep(i: nat, w: World, u: UserId, st: Dict, raw: string, env: Env)
    requires i < GuardCount
    requires !Truthy(Get(st, Flag(i)))
    ensures Chain(i, w, u, st, raw, env) == Chain(i + 1, w, u, st, raw, env)
  {
    UnflaggedGuardPasses(i, w, u, st, raw, env);
  }

  /**
   * The first guard whose flag is set decides: when it handles the message
   * the handler's outcome is exactly that guard's.
   */
  lemma ReachesGuard(k: nat, w: World, u: UserId, raw: string, env: Env)
    requires k < GuardCount
    requires forall j :: 0 <= j < k ==> !Truthy(Get(GetUserState(w.states, u), Flag(j)))
    requires Guard(k, w, u, GetUserState(w.states, u), raw, env).Done?
    ensures HandleText(w, u, raw, env) == Guard(k, w, u, GetUserState(w.states, u), raw, env)
  {
    ChainSkips(0, k, w, u, GetUserState(w.states, u), raw, env);
  }

  /** The add_food_mode guard is the first. */
  lemma FirstGuard(w: World, u: UserId, st: Dict, raw: string, env: Env)
    ensures Guard(0, w, u, st, raw, env) == AddFoodMode(w, u, st, raw, env)
  {
  }

  /** The reg_rest_step guard is the seventh. */
  lemma RegistrationGuard(w: World, u: UserId, st: Dict, raw: string, env: Env)
    ensures Guard(6, w, u, st, raw, env) == RegRestStep(w, u, st, raw, env)
  {
  }

  /** ReachesGuard with the guard's outcome named. */
  lemma HandledBy(k: nat, w: World, u: UserId, raw: string, env: Env, r: Res)
    requires k < GuardCount
    requires forall j :: 0 <= j < k ==> !Truthy(Get(GetUserState(w.states, u), Flag(j)))
    requires Guard(k, w, u, GetUserState(w.states, u), raw, env) == r && r.Done?
    ensures HandleText(w, u, raw, env) == r
  {
    ReachesGuard(k, w, u, raw, env);
  }

  /** With no flag set, only the menu texts are looked at. */
  lemma ReachesMenu(w: World, u: UserId, raw: string, env: Env)
    requires forall j :: 0 <= j < GuardCount ==> !Truthy(Get(GetUserState(w.states, u), Flag(j)))
    ensures HandleText(w, u, raw, env) == MenuText(w, u, raw)
  {
    ChainSkips(0, GuardCount, w, u, GetUserState(w.states, u), raw, env);
  }

  /** An unknown text with no conversation under way writes nothing. */
  lemma UnknownTextWritesNothing(w: World, u: UserId, raw: string, env: Env)
    requires GetUserState(w.states, u) == map[]
    requires Strip(raw) !in {"Search by restaurant", "Search by food", "Search by location", "Top-rated",
                             "Least-ordered (fastest)", "Closest restaurants", "My orders"}
    ensures HandleText(w, u, raw, env) == Done(w, [Send(u, UnknownCommand)])
  {
    ReachesMenu(w, u, raw, env);
  }

  // ---------------------------------------------------------------- input errors write nothing

  /** A price parse_price rejects, or zero, is asked for again and nothing is written. */
  lemma InvalidPriceWritesNothing(w: World, u: UserId, raw: string, env: Env)
    requires var st := GetUserState(w.states, u);
             Truthy(Get(st, "add_food_mode")) && "rid" in st && Get(st, "step") == Str("price")
    requires ParsePrice(raw).None? || ParsePrice(raw).value <= 0.0
    ensures HandleText(w, u, raw, env) == Done(w, [Send(u, InvalidPrice)])
  {
    ReachesGuard(0, w, u, raw, env);
  }

  /**
   * The partner: a positive price saves the dish under the fresh id in the
   * restaurant's dishes, with that price, and empties the state.
   */
  lemma ValidPriceSavesDish(w: World, u: UserId, raw: string, env: Env, rk: string, p: real)
    requires var st := GetUserState(w.states, u);
             Truthy(Get(st, "add_food_mode")) && "rid" in st && Get(st, "step") == Str("price") &&
             PathKey(st["rid"]) == Some(rk) && Get(st, "food").Obj? && "name" in st["food"].fields
    requires ParsePrice(raw) == Some(p) && p > 0.0
    ensures var r := HandleText(w, u, raw, env);
            var food := GetUserState(w.states, u)["food"].fields;
            && r.out == [Send(u, FoodAddedToRestaurant(food["name"]))]
            && Get(AsDict(Get(RecordOf(r.w.restaurants, rk), "foods")), env.freshId) == Obj(PricedFood(food, p))
            && GetUserState(r.w.states, u) == map[]
            && r.w.orders == w.orders && r.w.jobs == w.jobs
  {
    var st := GetUserState(w.states, u);
    var food := st["food"].fields;
    PriceStepSaves(w, u, st, raw, env, rk, p);
    FirstGuard(w, u, st, raw, env);
    HandledBy(0, w, u, raw, env,
              Done(ClearState(w.(restaurants := WithGrandchild(w.restaurants, rk, "foods", env.freshId, Obj(PricedFood(food, p)))), u),
                   [Send(u, FoodAddedToRestaurant(food["name"]))]));
  }

  /** The price step of add_food_mode on a positive price. */
  lemma PriceStepSaves(w: World, u: UserId, st: Dict, raw: string, env: Env, rk: string, p: real)
    requires Truthy(Get(st, "add_food_mode")) && "rid" in st && Get(st, "step") == Str("price") &&
             PathKey(st["rid"]) == Some(rk) && Get(st, "food").Obj? && "name" in st["food"].fields
    requires ParsePrice(raw) == Some(p) && p > 0.0
    ensures var food := st["food"].fields;
            AddFoodMode(w, u, st, raw, env) ==
            Done(ClearState(w.(restaurants := WithGrandchild(w.restaurants, rk, "foods", env.freshId, Obj(PricedFood(food, p)))), u),
                 [Send(u, FoodAddedToRestaurant(food["name"]))])
  {
    PriceStepDispatches(w, u, st, raw, env, p);
    SaveDishStores(w, u, st, p, env, rk);
  }

  /**
   * any(...) over the stored names: a clash is reported exactly when some
   * stored name equals the new one ignoring case; it is decided whenever
   * every stored name is a string or absent.
   */
  lemma {:induction false} NameClashSpec(keys: seq<string>, rs: map<string, Dict>, name: string)
    requires forall k :: k in keys ==> k in rs
    ensures NameClash(keys, rs, name) == Some(true) ==>
              exists i :: 0 <= i < |keys| && SameName(rs[keys[i]], name)
    ensures NameClash(keys, rs, name) == Some(false) ==>
              forall i :: 0 <= i < |keys| ==> !SameName(rs[keys[i]], name)
    ensures (forall i :: 0 <= i < |keys| ==> TextOr(rs[keys[i]], "name").Some?) ==> NameClash(keys, rs, name).Some?
    decreases |keys|
  {
    if keys != [] {
      NameClashSpec(keys[1..], rs, name);
      if TextOr(rs[keys[0]], "name").Some? && !SameName(rs[keys[0]], name) {
        var r := NameClash(keys[1..], rs, name);
        assert NameClash(keys, rs, name) == r;
        if r == Some(true) {
          var i :| 0 <= i < |keys[1..]| && SameName(rs[keys[1..][i]], name);
          assert keys[1..][i] == keys[i + 1];
        }
        if r == Some(false) {
          forall i | 0 <= i < |keys| ensures !SameName(rs[keys[i]], name) {
            if i > 0 { assert keys[i] == keys[1..][i - 1]; }
          }
        }
        if forall i :: 0 <= i < |keys| ==> TextOr(rs[keys[i]], "name").Some? {
          forall i | 0 <= i < |keys[1..]| ensures TextOr(rs[keys[1..][i]], "name").Some? {
            assert keys[1..][i] == keys[i + 1];
          }
        }
      }
    }
  }

  /** A stored restaurant's name equals name, ignoring case. */
  predicate SameName(r: Dict, name: string)
  {
    TextOr(r, "name").Some? && Lower(TextOr(r, "name").value) == Lower(name)
  }

  /** Every stored name is a string and one of them matches: the clash is found. */
  lemma ClashFound(keys: seq<string>, rs: map<string, Dict>, name: string)
    requires forall k :: k in keys <==> k in rs
    requires forall k :: k in rs ==> TextOr(rs[k], "name").Some?
    requires exists k :: k in rs && SameName(rs[k], name)
    ensures NameClash(keys, rs, name) == Some(true)
  {
    NameClashSpec(keys, rs, name);
    assert forall i :: 0 <= i < |keys| ==> TextOr(rs[keys[i]], "name").Some?;
    var k :| k in rs && SameName(rs[k], name);
    assert k in keys;
    var i :| 0 <= i < |keys| && keys[i] == k;
    assert SameName(rs[keys[i]], name);
    var r := NameClash(keys, rs, name);
    assert r.Some?;
    assert r != Some(false);
    assert r.value;
  }

  /** A restaurant name already taken up to case is asked for again and nothing is written. */
  lemma DuplicateNameWritesNothing(w: World, u: UserId, raw: string, env: Env)
    requires var st := GetUserState(w.states, u);
             (forall j :: 0 <= j < 6 ==> !Truthy(Get(st, Flag(j)))) &&
             Get(st, "reg_rest_step") == Str("name") && "new_rest" in st
    requires forall k :: k in w.restaurants ==> TextOr(w.restaurants[k], "name").Some?
    requires exists k :: k in w.restaurants && SameName(w.restaurants[k], Strip(raw))
    ensures HandleText(w, u, raw, env) == Done(w, [Send(u, NameExists)])
  {
    ClashFound(SortedKeys(w.restaurants), w.restaurants, Strip(raw));
    NameStepRejects(w, u, GetUserState(w.states, u), raw, env);
    HandledBy(6, w, u, raw, env, Done(w, [Send(u, NameExists)]));
  }

  /** The name step of the registration on a name already taken. */
  lemma NameStepRejects(w: World, u: UserId, st: Dict, raw: string, env: Env)
    requires Get(st, "reg_rest_step") == Str("name") && "new_rest" in st
    requires NameClash(SortedKeys(w.restaurants), w.restaurants, Strip(raw)) == Some(true)
    ensures Guard(6, w, u, st, raw, env) == Done(w, [Send(u, NameExists)])
  {
    assert RegRestStep(w, u, st, raw, env) == Done(w, [Send(u, NameExists)]);
    RegistrationGuard(w, u, st, raw, env);
  }

  /** The partner: a fresh name is recorded in the registration, which moves on to the dishes. */
  lemma FreshNameRecorded(w: World, u: UserId, raw: string, env: Env)
    requires var st := GetUserState(w.states, u);
             (forall j :: 0 <= j < 6 ==> !Truthy(Get(st, Flag(j)))) &&
             Get(st, "reg_rest_step") == Str("name") && "new_rest" in st && st["new_rest"].Obj?
    requires forall k :: k in w.restaurants ==> TextOr(w.restaurants[k], "name").Some? && !SameName(w.restaurants[k], Strip(raw))
    ensures var r := HandleText(w, u, raw, env);
            var st := GetUserState(w.states, u);
            && r.out == [Send(u, ChooseFoods)]
            && Get(GetUserState(r.w.states, u), "new_rest") == Obj(st["new_rest"].fields["name" := Str(Strip(raw))])
            && Get(GetUserState(r.w.states, u), "reg_rest_step") == Str("foods")
            && r.w.restaurants == w.restaurants
  {
    var st := GetUserState(w.states, u);
    ClashAbsent(SortedKeys(w.restaurants), w.restaurants, Strip(raw));
    var partial := map["reg_rest_step" := Str("foods"), "new_rest" := Obj(st["new_rest"].fields["name" := Str(Strip(raw))])];
    NameStepSaves(w, u, st, raw, env);
    HandledBy(6, w, u, raw, env, Done(SetState(w, u, partial), [Send(u, ChooseFoods)]));
    RegistrationMoves(w.states, u, Str("foods"), partial["new_rest"]);
  }

  /** No stored name matches and each is a string: there is no clash. */
  lemma ClashAbsent(keys: seq<string>, rs: map<string, Dict>, name: string)
    requires forall k :: k in keys <==> k in rs
    requires forall k :: k in rs ==> TextOr(rs[k], "name").Some? && !SameName(rs[k], name)
    ensures NameClash(keys, rs, name) == Some(false)
  {
    NameClashSpec(keys, rs, name);
    assert forall i :: 0 <= i < |keys| ==> TextOr(rs[keys[i]], "name").Some?;
    var r := NameClash(keys, rs, name);
    assert !r.value;
  }

  /** The name step of the registration, once the name is known to be fresh. */
  lemma NameStepSaves(w: World, u: UserId, st: Dict, raw: string, env: Env)
    requires Get(st, "reg_rest_step") == Str("name") && "new_rest" in st && st["new_rest"].Obj?
    requires NameClash(SortedKeys(w.restaurants), w.restaurants, Strip(raw)) == Some(false)
    ensures Guard(6, w, u, st, raw, env) ==
            Done(SetState(w, u, map["reg_rest_step" := Str("foods"),
                                    "new_rest" := Obj(st["new_rest"].fields["name" := Str(Strip(raw))])]),
                 [Send(u, ChooseFoods)])
  {
    assert RegRestStep(w, u, st, raw, env) ==
           Done(SetState(w, u, map["reg_rest_step" := Str("foods"),
                                   "new_rest" := Obj(st["new_rest"].fields["name" := Str(Strip(raw))])]),
                [Send(u, ChooseFoods)]);
    RegistrationGuard(w, u, st, raw, env);
  }

  /** A custom dish line without exactly four fields is asked for again and nothing is written. */
  lemma MalformedCustomFoodWritesNothing(w: World, u: UserId, raw: string, env: Env)
    requires var st := GetUserState(w.states, u);
             (forall j :: 0 <= j < 6 ==> !Truthy(Get(st, Flag(j)))) &&
             Get(st, "reg_rest_step") == Str("custom_food") && "new_rest" in st
    requires Count(Strip(raw), '|') != 3
    ensures HandleText(w, u, raw, env) == Done(w, [Send(u, InvalidCustomFood)])
  {
    ReachesGuard(6, w, u, raw, env);
  }

  /** The partner: a well-formed line appends exactly that dish to the registration's list. */
  lemma CustomFoodAppended(w: World, u: UserId, raw: string, env: Env)
    requires var st := GetUserState(w.states, u);
             (forall j :: 0 <= j < 6 ==> !Truthy(Get(st, Flag(j)))) &&
             Get(st, "reg_rest_step") == Str("custom_food") && "new_rest" in st && st["new_rest"].Obj? &&
             GetOr(st["new_rest"].fields, "foods", Arr([])).Arr?
    requires Count(Strip(raw), '|') == 3
    ensures var r := HandleText(w, u, raw, env);
            var data := GetUserState(w.states, u)["new_rest"].fields;
            var pieces := StripAll(Split(Strip(raw), '|'));
            && |pieces| == 4
            && Get(GetUserState(r.w.states, u), "new_rest") ==
               Obj(data["foods" := Arr(GetOr(data, "foods", Arr([])).items + [CustomFood(pieces)])])
            && r.out == [Send(u, CustomFoodAdded(pieces[0]))]
            && r.w.restaurants == w.restaurants
  {
    var st := GetUserState(w.states, u);
    var data := st["new_rest"].fields;
    var pieces := StripAll(Split(Strip(raw), '|'));
    var partial := map["reg_rest_step" := Str("foods"),
                       "new_rest" := Obj(data["foods" := Arr(GetOr(data, "foods", Arr([])).items + [CustomFood(pieces)])])];
    CustomStepAppends(w, u, st, raw, env);
    HandledBy(6, w, u, raw, env, Done(SetState(w, u, partial), [Send(u, CustomFoodAdded(pieces[0]))]));
    RegistrationMoves(w.states, u, Str("foods"), partial["new_rest"]);
  }

  /** Where the registration goes next and what it holds so far, merged into the state. */
  lemma RegistrationMoves(states: States, u: UserId, step: Value, data: Value)
    ensures var st := GetUserState(SetUserState(states, u, map["reg_rest_step" := step, "new_rest" := data]), u);
            Get(st, "reg_rest_step") == step && Get(st, "new_rest") == data
  {
    var partial := map["reg_rest_step" := step, "new_rest" := data];
    assert "reg_rest_step" in partial;
    SetUserStateMerges(states, u, partial);
  }


  /** The custom-dish step of the registration on a line with four fields. */
  lemma CustomStepAppends(w: World, u: UserId, st: Dict, raw: string, env: Env)
    requires Get(st, "reg_rest_step") == Str("custom_food") && "new_rest" in st && st["new_rest"].Obj?
    requires GetOr(st["new_rest"].fields, "foods", Arr([])).Arr?
    requires Count(Strip(raw), '|') == 3
    ensures var data := st["new_rest"].fields;
            var pieces := StripAll(Split(Strip(raw), '|'));
            && |pieces| == 4
            && Guard(6, w, u, st, raw, env) ==
               Done(SetState(w, u, map["reg_rest_step" := Str("foods"),
                                       "new_rest" := Obj(data["foods" := Arr(GetOr(data, "foods", Arr([])).items + [CustomFood(pieces)])])]),
                    [Send(u, CustomFoodAdded(pieces[0]))])
  {
    var pieces := StripAll(Split(Strip(raw), '|'));
    assert |pieces| == 4;
    assert st["reg_rest_step"] != Str("name");
    var data := st["new_rest"].fields;
    assert RegRestStep(w, u, st, raw, env) ==
           Done(SetState(w, u, map["reg_rest_step" := Str("foods"),
                                   "new_rest" := Obj(data["foods" := Arr(GetOr(data, "foods", Arr([])).items + [CustomFood(pieces)])])]),
                [Send(u, CustomFoodAdded(pieces[0]))]);
    RegistrationGuard(w, u, st, raw, env);
  }

  /** "ASAP" and "now" are recognised in any case. */
  lemma NowInAnyCase()
    ensures MeansNow("ASAP") && MeansNow("asap") && MeansNow("Now") && MeansNow("NOW")
  {
    var a := Lower("ASAP");
    assert a[0] == 'a' && a[1] == 's' && a[2] == 'a' && a[3] == 'p';
    assert a == "asap";
    var b := Lower("asap");
    assert b[0] == 'a' && b[1] == 's' && b[2] == 'a' && b[3] == 'p';
    assert b == "asap";
    var c := Lower("Now");
    assert c[0] == 'n' && c[1] == 'o' && c[2] == 'w';
    assert c == "now";
    var d := Lower("NOW");
    assert d[0] == 'n' && d[1] == 'o' && d[2] == 'w';
    assert d == "now";
  }

  /** A pending order that waits for its time, and no earlier guard's flag set. */
  predicate AwaitingTime(st: Dict)
  {
    Truthy(Get(st, "awaiting_schedule")) && Truthy(Get(st, "pending_order")) &&
    forall j :: 0 <= j < 11 ==> !Truthy(Get(st, Flag(j)))
  }

  /** The schedule guard is the one that handles a message in that state. */
  lemma ScheduleGuardDecides(w: World, u: UserId, raw: string, env: Env)
    requires AwaitingTime(GetUserState(w.states, u))
    ensures HandleText(w, u, raw, env) == AwaitingSchedule(w, u, GetUserState(w.states, u), raw, env)
  {
    var st := GetUserState(w.states, u);
    LastGuard(w, u, st, raw, env);
    HandledBy(11, w, u, raw, env, AwaitingSchedule(w, u, st, raw, env));
  }

  /** No guard before the schedule guard tests the flags of a pending order. */
  lemma EarlyFlags()
    ensures forall j :: 0 <= j < 11 ==> Flag(j) != "awaiting_schedule" && Flag(j) != "pending_order"
  {
  }

  /** The awaiting_schedule guard is the last. */
  lemma LastGuard(w: World, u: UserId, st: Dict, raw: string, env: Env)
    ensures Guard(11, w, u, st, raw, env) == AwaitingSchedule(w, u, st, raw, env)
  {
  }

  /** A time that neither means now nor parses is asked for again and nothing is written. */
  lemma InvalidTimeWritesNothing(w: World, u: UserId, raw: string, env: Env)
    requires AwaitingTime(GetUserState(w.states, u))
    requires !MeansNow(Strip(raw)) && env.parseTime(Strip(raw)).None?
    ensures HandleText(w, u, raw, env) == Done(w, [Send(u, InvalidTime)])
  {
    ScheduleGuardDecides(w, u, raw, env);
  }

  // ---------------------------------------------------------------- the schedule commit

  /**
   * On a list (or nothing) of orders and a numeric (or absent) counter, the
   * restaurant's list gains the order id exactly once and its counter rises
   * by one; no other restaurant changes.
   */
  lemma RecordOrderCounts(rs: map<string, Dict>, rk: string, orderId: string)
    requires var rec := RecordOf(rs, rk);
             (Get(rec, "orders").Null? || (Get(rec, "orders").Arr? && Str(orderId) !in Get(rec, "orders").items)) &&
             (Get(rec, "orders_count").Null? || Get(rec, "orders_count").Int?)
    ensures var before := RecordOf(rs, rk);
            var after := RecordOf(RecordOrder(rs, rk, orderId), rk);
            var olds := if Get(before, "orders").Arr? then Get(before, "orders").items else [];
            var n := if Get(before, "orders_count").Int? then Get(before, "orders_count").i else 0;
            && Get(after, "orders") == Arr(olds + [Str(orderId)])
            && Get(after, "orders_count") == Int(n + 1)
            && forall c :: c != "orders" && c != "orders_count" ==> Get(after, c) == Get(before, c)
    ensures forall j :: j != rk ==> RecordOf(RecordOrder(rs, rk, orderId), j) == RecordOf(rs, j)
  {
    var orders := Get(RecordOf(rs, rk), "orders");
    if orders.Arr? {
      AppendIfAbsentSpec(orders.items, Str(orderId));
    }
  }

  /**
   * A time that means now, or parses, places the order: it is stored with
   * status "scheduled" and its time, every other field of the pending order
   * is kept, the restaurant's aggregates are updated, one job is registered
   * for it, the state is emptied, and the user is told the id.
   */
  lemma ScheduleCommits(w: World, u: UserId, raw: string, env: Env, rk: string, runAt: Instant)
    requires var st := GetUserState(w.states, u);
             AwaitingTime(st) && st["pending_order"].Obj? &&
             PathKey(Get(st["pending_order"].fields, "restaurant_id")) == Some(rk)
    requires RunAt(Strip(raw), env) == Some(runAt)
    ensures var r := HandleText(w, u, raw, env);
            var pending := GetUserState(w.states, u)["pending_order"].fields;
            var oid := env.freshId;
            && r.out == [Send(u, OrderPlaced(oid, runAt))]
            && r.w.orders == w.orders[oid := PlacedOrder(pending, oid, runAt, env)]
            && r.w.restaurants == RecordOrder(w.restaurants, rk, oid)
            && r.w.jobs == Schedule(w.jobs, oid, runAt, RestaurantChat(r.w.restaurants, rk))
            && GetUserState(r.w.states, u) == map[]
            && r.w.users == w.users && r.w.catalogue == w.catalogue && r.w.sharedFoods == w.sharedFoods
  {
    var st := GetUserState(w.states, u);
    ScheduleStepPlaces(w, u, st, raw, env, rk, runAt);
    var oid := env.freshId;
    var w1 := w.(orders := w.orders[oid := PlacedOrder(st["pending_order"].fields, oid, runAt, env)]);
    var w2 := w1.(restaurants := RecordOrder(w1.restaurants, rk, oid));
    var w3 := w2.(jobs := Schedule(w2.jobs, oid, runAt, RestaurantChat(w2.restaurants, rk)));
    ScheduleGuardDecides(w, u, raw, env);
    SetEmptyClears(w3.states, u);
  }

  /** The schedule guard on a time it accepts, for a pending order that names its restaurant. */
  lemma ScheduleStepPlaces(w: World, u: UserId, st: Dict, raw: string, env: Env, rk: string, runAt: Instant)
    requires AwaitingTime(st) && st["pending_order"].Obj?
    requires PathKey(Get(st["pending_order"].fields, "restaurant_id")) == Some(rk)
    requires RunAt(Strip(raw), env) == Some(runAt)
    ensures var oid := env.freshId;
            var w1 := w.(orders := w.orders[oid := PlacedOrder(st["pending_order"].fields, oid, runAt, env)]);
            var w2 := w1.(restaurants := RecordOrder(w1.restaurants, rk, oid));
            var w3 := w2.(jobs := Schedule(w2.jobs, oid, runAt, RestaurantChat(w2.restaurants, rk)));
            AwaitingSchedule(w, u, st, raw, env) == Done(SetState(w3, u, map[]), [Send(u, OrderPlaced(oid, runAt))])
  {
    var order := PlacedOrder(st["pending_order"].fields, env.freshId, runAt, env);
    assert Get(order, "restaurant_id") == Get(st["pending_order"].fields, "restaurant_id");
  }

  // ---------------------------------------------------------------- pick_qty

  /** Every quantity button carries a quantity between 1 and 5. */
  lemma OfferedQuantities(rid: Value, fname: Value)
    ensures forall b :: b in QtyButtons(rid, fname) ==>
              b.Obj? && Get(b.fields, "action") == Str("pick_qty") &&
              PyInt(Get(b.fields, "qty")).Some? && 1 <= PyInt(Get(b.fields, "qty")).value <= 5
  {
    var bs := QtyButtons(rid, fname);
    forall b | b in bs
      ensures b.Obj? && Get(b.fields, "action") == Str("pick_qty") &&
              PyInt(Get(b.fields, "qty")).Some? && 1 <= PyInt(Get(b.fields, "qty")).value <= 5
    {
      var i :| 0 <= i < |bs| && bs[i] == b;
      assert Quantities[i] in Quantities;
    }
  }

  /** What pick_qty needs to find: the restaurant, the dish by name, and its unit price. */
  predicate PickFinds(w: World, data: Dict, qty: int, rk: string, food: Dict, unit: real)
  {
    "rid" in data && "food_name" in data && "qty" in data &&
    PyInt(data["qty"]) == Some(qty) && PathKey(data["rid"]) == Some(rk) && rk in w.restaurants &&
    PickLookup(w.restaurants[rk], data["food_name"]) == Some(Some(food)) &&
    PyFloat(GetOr(food, "price", Int(0))) == Some(unit)
  }

  /** pick_qty on a dish it finds: the pending order is merged into the state. */
  lemma PickQtyPends(w: World, u: UserId, data: Dict, fullName: string, qty: int, rk: string, food: Dict, unit: real)
    requires PickFinds(w, data, qty, rk, food, unit)
    ensures var pending := PendingOrder(data["rid"], w.restaurants[rk], data["food_name"], qty, unit, u, fullName,
                                        Get(RecordOf(w.users, UserKey(u)), "phone"));
            PickQty(w, u, data, fullName) ==
            Done(SetState(w, u, map["awaiting_schedule" := T, "pending_order" := Obj(pending)]), [Send(u, AskSchedule), Answer(Ack)])
  {
  }

  /**
   * The order pick_qty leaves pending totals the unit price times the
   * quantity, in a single line for the dish; nothing but the state is written.
   */
  lemma PickQtyPrices(w: World, u: UserId, data: Dict, fullName: string, qty: int, rk: string, food: Dict, unit: real)
    requires PickFinds(w, data, qty, rk, food, unit)
    ensures var r := PickQty(w, u, data, fullName);
            var st := GetUserState(r.w.states, u);
            && r.out == [Send(u, AskSchedule), Answer(Ack)]
            && Get(st, "awaiting_schedule") == Bool(true)
            && Get(st, "pending_order").Obj?
            && Get(Get(st, "pending_order").fields, "total_price") == Num(unit * qty as real)
            && Get(Get(st, "pending_order").fields, "restaurant_id") == data["rid"]
            && Get(Get(st, "pending_order").fields, "items") ==
               Arr([Obj(map["name" := data["food_name"], "qty" := Int(qty), "price" := Num(unit * qty as real)])])
            && r.w == w.(states := r.w.states)
  {
    var pending := PendingOrder(data["rid"], w.restaurants[rk], data["food_name"], qty, unit, u, fullName,
                                Get(RecordOf(w.users, UserKey(u)), "phone"));
    PickQtyPends(w, u, data, fullName, qty, rk, food, unit);
    PendingOrderStored(w.states, u, pending);
  }

  /** Merging a pending order into the state makes it the one read back, awaiting a time. */
  lemma PendingOrderStored(states: States, u: UserId, pending: Dict)
    ensures var st := GetUserState(SetUserState(states, u, map["awaiting_schedule" := T, "pending_order" := Obj(pending)]), u);
            Get(st, "awaiting_schedule") == T && Get(st, "pending_order") == Obj(pending)
  {
    var partial := map["awaiting_schedule" := T, "pending_order" := Obj(pending)];
    assert "awaiting_schedule" in partial;
    SetUserStateMerges(states, u, partial);
  }

  /**
   * From an idle conversation, picking a quantity and answering "ASAP"
   * stores the order as scheduled for now, with the total of the picked
   * quantity, and registers its job.
   */
  lemma PickThenAsap(w: World, u: UserId, data: Dict, fullName: string, qty: int, rk: string, food: Dict,
                     unit: real, raw: string, env: Env)
    requires GetUserState(w.states, u) == map[]
    requires PickFinds(w, data, qty, rk, food, unit)
    requires MeansNow(Strip(raw))
    ensures var w1 := PickQty(w, u, data, fullName).w;
            var r := HandleText(w1, u, raw, env);
            var o := RecordOf(r.w.orders, env.freshId);
            && Get(o, "status") == Str("scheduled")
            && Get(o, "scheduled_for") == Str(env.iso(env.now))
            && Get(o, "total_price") == Num(unit * qty as real)
            && JobId(env.freshId) in r.w.jobs && r.w.jobs[JobId(env.freshId)].runAt == env.now
            && GetUserState(r.w.states, u) == map[]
  {
    var pending := PendingOrder(data["rid"], w.restaurants[rk], data["food_name"], qty, unit, u, fullName,
                                Get(RecordOf(w.users, UserKey(u)), "phone"));
    PickQtyPends(w, u, data, fullName, qty, rk, food, unit);
    assert "total_price" in pending;
    AsapPlacesPending(w, u, pending, raw, env, rk);
  }

  /** "ASAP" after a pending order is merged into an empty state places that order now. */
  lemma AsapPlacesPending(w: World, u: UserId, pending: Dict, raw: string, env: Env, rk: string)
    requires GetUserState(w.states, u) == map[]
    requires pending != map[] && PathKey(Get(pending, "restaurant_id")) == Some(rk)
    requires MeansNow(Strip(raw))
    ensures var r := HandleText(SetState(w, u, map["awaiting_schedule" := T, "pending_order" := Obj(pending)]), u, raw, env);
            var o := RecordOf(r.w.orders, env.freshId);
            && Get(o, "status") == Str("scheduled")
            && Get(o, "scheduled_for") == Str(env.iso(env.now))
            && Get(o, "total_price") == Get(pending, "total_price")
            && JobId(env.freshId) in r.w.jobs && r.w.jobs[JobId(env.freshId)].runAt == env.now
            && GetUserState(r.w.states, u) == map[]
  {
    PendingAwaitsTime(w.states, u, pending);
    var w1 := SetState(w, u, map["awaiting_schedule" := T, "pending_order" := Obj(pending)]);
    ScheduleCommits(w1, u, raw, env, rk, env.now);
    PlacedNow(HandleText(w1, u, raw, env).w, w1, u, pending, env, rk);
  }

  /** The facts about an order placed now that the world after the commit shows. */
  lemma PlacedNow(w2: World, w1: World, u: UserId, pending: Dict, env: Env, rk: string)
    requires w2.orders == w1.orders[env.freshId := PlacedOrder(pending, env.freshId, env.now, env)]
    requires w2.jobs == Schedule(w1.jobs, env.freshId, env.now, RestaurantChat(w2.restaurants, rk))
    ensures var o := RecordOf(w2.orders, env.freshId);
            && Get(o, "status") == Str("scheduled")
            && Get(o, "scheduled_for") == Str(env.iso(env.now))
            && Get(o, "total_price") == Get(pending, "total_price")
            && JobId(env.freshId) in w2.jobs && w2.jobs[JobId(env.freshId)].runAt == env.now
  {
    var o := PlacedOrder(pending, env.freshId, env.now, env);
    assert Get(o, "total_price") == Get(pending, "total_price");
  }

  /** From an empty state, merging a pending order leaves exactly the state the schedule guard waits for. */
  lemma PendingAwaitsTime(states: States, u: UserId, pending: Dict)
    requires GetUserState(states, u) == map[]
    requires pending != map[]
    ensures var st := GetUserState(SetUserState(states, u, map["awaiting_schedule" := T, "pending_order" := Obj(pending)]), u);
            AwaitingTime(st) && Get(st, "pending_order") == Obj(pending)
  {
    var partial := map["awaiting_schedule" := T, "pending_order" := Obj(pending)];
    assert "awaiting_schedule" in partial;
    SetUserStateMerges(states, u, partial);
  }

  // ---------------------------------------------------------------- finalising a registration

  /** attempt_finish_after_state_change never reports a save error: it only tries a complete registration. */
  lemma AttemptFinishNeverRejected(w: World, u: UserId, env: Env)
    ensures forall e :: e in AttemptFinish(w, u, env).out ==> !(e.Send? && e.msg.SaveError?)
  {
  }

  /**
   * Selecting a manager records the chat id in the pending registration;
   * once that makes it complete, the restaurant is saved with that manager.
   */
  lemma ManagerRecorded(w: World, u: UserId, data: Dict, env: Env, chat: int)
    requires "uid" in data && PyInt(data["uid"]) == Some(chat)
    requires var st := GetUserState(w.states, u);
             Or(Or(Get(st, "pending_rest"), Get(st, "data")), Obj(map[])).Obj?
    ensures var st := GetUserState(w.states, u);
            var pending := Or(Or(Get(st, "pending_rest"), Get(st, "data")), Obj(map[])).fields["manager_chat_id" := Int(chat)];
            var r := SelectRestManager(w, u, data, env);
            && (!ReadyToFinish(Obj(pending)) ==>
                  Get(GetUserState(r.w.states, u), "pending_rest") == Obj(pending) &&
                  r.w.restaurants == w.restaurants)
            && (ReadyToFinish(Obj(pending)) ==>
                  GetUserState(r.w.states, u) == map[] &&
                  Get(RecordOf(r.w.restaurants, env.freshId), "manager_chat_id") == Int(chat))
  {
    var st := GetUserState(w.states, u);
    var pending := Or(Or(Get(st, "pending_rest"), Get(st, "data")), Obj(map[])).fields["manager_chat_id" := Int(chat)];
    var w1 := SetState(w, u, map["pending_rest" := Obj(pending)]);
    assert SelectRestManager(w, u, data, env).w == AttemptFinish(w1, u, env).w;
    PendingRestStored(w.states, u, pending);
    AttemptFinishWith(w1, u, env, pending);
  }

  /** Storing a pending registration makes it the one read back. */
  lemma PendingRestStored(states: States, u: UserId, pending: Dict)
    ensures Get(GetUserState(SetUserState(states, u, map["pending_rest" := Obj(pending)]), u), "pending_rest") == Obj(pending)
  {
    var partial := map["pending_rest" := Obj(pending)];
    assert "pending_rest" in partial;
    SetUserStateMerges(states, u, partial);
  }

  /**
   * attempt_finish leaves an incomplete registration in place, and saves a
   * complete one under the fresh id, clearing the state.
   */
  lemma AttemptFinishWith(w: World, u: UserId, env: Env, pending: Dict)
    requires Get(GetUserState(w.states, u), "pending_rest") == Obj(pending)
    ensures !ReadyToFinish(Obj(pending)) ==> AttemptFinish(w, u, env).w == w
    ensures ReadyToFinish(Obj(pending)) ==>
              "name" in pending && "manager_chat_id" in pending && "location" in pending &&
              AttemptFinish(w, u, env).w ==
              ClearState(w.(restaurants := w.restaurants[env.freshId := RestaurantRecord(pending, env.freshId)]), u)
  {
    assert GetOr(GetUserState(w.states, u), "pending_rest", Obj(map[])) == Obj(pending);
  }

  // ---------------------------------------------------------------- the editor

  /** The editor opens only on a stored restaurant; a missing one writes nothing. */
  lemma EditRestOpens(w: World, u: UserId, data: Dict, rk: string)
    requires "rid" in data && PathKey(data["rid"]) == Some(rk)
    ensures var r := EditRest(w, u, data);
            && (RecordOf(w.restaurants, rk) == map[] ==> r == Done(w, [Answer(RestaurantNotFound)]))
            && (RecordOf(w.restaurants, rk) != map[] ==>
                  Get(GetUserState(r.w.states, u), "editing_rest") == Bool(true) &&
                  Get(GetUserState(r.w.states, u), "rid") == data["rid"] &&
                  r.w.restaurants == w.restaurants)
  {
    var rest := RecordOf(w.restaurants, rk);
    if rest != map[] {
      var partial := map["editing_rest" := T, "rid" := data["rid"]];
      var w1 := SetState(w, u, partial);
      assert EditRest(w, u, data).w == w1;
      assert "editing_rest" in partial;
      SetUserStateMerges(w.states, u, partial);
    }
  }

  /** A pending search empties the state before anything else, even when it then falls through. */
  lemma SearchEmptiesStateFirst(w: World, u: UserId, st: Dict, raw: string)
    requires Truthy(Get(st, "awaiting_search"))
    ensures GetUserState(AwaitingSearch(w, u, st, raw).w.states, u) == map[]
    ensures AwaitingSearch(w, u, st, raw).w.restaurants == w.restaurants
  {
    SetEmptyClears(w.states, u);
    assert AwaitingSearch(w, u, st, raw).w == SetState(w, u, map[]);
  }
}
