/**
 * callback_handler (bot.py): a pressed inline button. Two plain-string
 * payloads are recognised first; every other payload is read as JSON and
 * dispatched on its "action". The restaurant registration it may complete
 * is try_finalize_pending_rest.
 */
module Callbacks {
  import opened Wrappers
  import opened Numerals
  import opened Json
  import opened StateStore
  import opened Aggregates
  import opened Listing
  import opened BotWorld

  // ---------------------------------------------------------------- plain-string payloads

  /** save_restaurant_and_finish: the collected record under a fresh id, then the state emptied. */
  function SaveRestaurantAndFinish(w: World, u: UserId, data: Value, env: Env): (r: Res)
    ensures r.Done?
  {
    if !data.Obj? then Raise(w, [])
    else
      var record := data.fields["id" := Str(env.freshId)]["foods" := GetOr(data.fields, "foods", Arr([]))]
                               ["created_at" := ServerTimestamp];
      var w1 := ClearState(w.(restaurants := w.restaurants[env.freshId := record]), u);
      if "name" !in record then Raise(w1, [])
      else Done(w1, [Send(u, RestaurantAdded(record["name"]))])
  }

  // ---------------------------------------------------------------- edit_rest

  /** The restaurant editor opens on a stored restaurant. */
  function EditRest(w: World, u: UserId, data: Dict): (r: Res)
    ensures r.Done?
  {
    if "rid" !in data then Raise(w, [])
    else match PathKey(data["rid"])
      case None => Raise(w, [])
      case Some(rk) =>
        var rest := RecordOf(w.restaurants, rk);
        if rest == map[] then Done(w, [Answer(RestaurantNotFound)])
        else
          var w1 := SetState(w, u, map["editing_rest" := T, "rid" := data["rid"]]);
          if "name" !in rest then Raise(w1, [])
          else Done(w1, [Send(u, EditingRestaurant(rest["name"])), Answer(Ack)])
  }

  // ---------------------------------------------------------------- add_rest_select_manager

  /** The outcome of try_finalize_pending_rest: the reason it declined, or the record saved. */
  datatype Finalize =
    | FinalizeRaises
    | Rejected(reason: string)
    | Registered(w: World, restId: string, out: seq<Effect>)

  /** The restaurant record built from a complete pending registration. */
  function RestaurantRecord(pending: Dict, restId: string): (rec: Dict)
    requires "name" in pending && "manager_chat_id" in pending && "location" in pending
    ensures Get(rec, "id") == Str(restId) && Get(rec, "name") == pending["name"]
    ensures Get(rec, "manager_chat_id") == pending["manager_chat_id"] && Get(rec, "location") == pending["location"]
    ensures Get(rec, "foods") == GetOr(pending, "foods", Arr([]))
    ensures Get(rec, "created_at") == ServerTimestamp
    ensures "image_storage_path" in rec <==> Truthy(Get(pending, "image_storage_path"))
    ensures "image_file_id" in rec <==> Truthy(Get(pending, "image_file_id"))
    ensures "image_storage_path" in rec ==> rec["image_storage_path"] == pending["image_storage_path"]
    ensures "image_file_id" in rec ==> rec["image_file_id"] == pending["image_file_id"]
    ensures rec.Keys <= {"id", "name", "foods", "manager_chat_id", "location", "created_at",
                         "image_storage_path", "image_file_id"}
  {
    var base := map["id" := Str(restId), "name" := pending["name"], "foods" := GetOr(pending, "foods", Arr([])),
                    "manager_chat_id" := pending["manager_chat_id"], "location" := pending["location"],
                    "created_at" := ServerTimestamp];
    var withPath := if Truthy(Get(pending, "image_storage_path"))
                    then base["image_storage_path" := pending["image_storage_path"]] else base;
    if Truthy(Get(pending, "image_file_id")) then withPath["image_file_id" := pending["image_file_id"]] else withPath
  }

  /**
   * try_finalize_pending_rest: the checks run in order, each reason given
   * exactly when the earlier fields are there and this one is not;
   * otherwise the restaurant is saved under the fresh id, with the image
   * fields only when they are set, and the state emptied. A pending value
   * that is not a record makes pending.get raise.
   */
  function TryFinalize(w: World, u: UserId, env: Env): (r: Finalize)
    ensures r.FinalizeRaises? <==> !GetOr(GetUserState(w.states, u), "pending_rest", Obj(map[])).Obj?
    ensures GetOr(GetUserState(w.states, u), "pending_rest", Obj(map[])).Obj? ==>
            var p := GetOr(GetUserState(w.states, u), "pending_rest", Obj(map[])).fields;
            && (r == Rejected("Name missing") <==> !Truthy(Get(p, "name")))
            && (r == Rejected("Manager missing") <==> Truthy(Get(p, "name")) && "manager_chat_id" !in p)
            && (r == Rejected("Location missing") <==>
                  Truthy(Get(p, "name")) && "manager_chat_id" in p && "location" !in p)
            && (r.Registered? <==> Truthy(Get(p, "name")) && "manager_chat_id" in p && "location" in p)
    ensures r.Registered? ==>
            var p := GetOr(GetUserState(w.states, u), "pending_rest", Obj(map[])).fields;
            var rec := RecordOf(r.w.restaurants, env.freshId);
            && r.restId == env.freshId
            && GetUserState(r.w.states, u) == map[]
            && Get(rec, "name") == Get(p, "name") && Get(rec, "manager_chat_id") == Get(p, "manager_chat_id")
            && Get(rec, "location") == Get(p, "location")
            && ("image_storage_path" in rec <==> Truthy(Get(p, "image_storage_path")))
            && ("image_file_id" in rec <==> Truthy(Get(p, "image_file_id")))
            && forall k :: k != env.freshId ==> RecordOf(r.w.restaurants, k) == RecordOf(w.restaurants, k)
  {
    var pending := GetOr(GetUserState(w.states, u), "pending_rest", Obj(map[]));
    if !pending.Obj? then FinalizeRaises
    else
      var p := pending.fields;
      if !Truthy(Get(p, "name")) then Rejected("Name missing")
      else if "manager_chat_id" !in p then Rejected("Manager missing")
      else if "location" !in p then Rejected("Location missing")
      else
        var rec := RestaurantRecord(p, env.freshId);
        var w1 := ClearState(w.(restaurants := w.restaurants[env.freshId := rec]), u);
        Registered(w1, env.freshId, [Send(u, RestaurantRegistered(Get(rec, "name"), env.freshId))])
  }

  /** The pending registration is complete enough to try saving it. */
  predicate ReadyToFinish(pending: Value)
  {
    Truthy(pending) && pending.Obj? && Truthy(Get(pending.fields, "name")) &&
    Truthy(Get(pending.fields, "manager_chat_id")) && Truthy(Get(pending.fields, "location"))
  }

  /** attempt_finish_after_state_change: save the registration once it is complete. */
  function AttemptFinish(w: World, u: UserId, env: Env): (r: Res)
    ensures r.Done?
  {
    var pending := GetOr(GetUserState(w.states, u), "pending_rest", Obj(map[]));
    if !Truthy(pending) then Done(w, [])
    else if !pending.Obj? then Raise(w, [])
    else if !ReadyToFinish(pending) then Done(w, [])
    else match TryFinalize(w, u, env)
      case FinalizeRaises => Raise(w, [])
      case Rejected(reason) => Done(w, [Send(u, SaveError(reason))])
      case Registered(w1, _, out) => Done(w1, out)
  }

  /** The manager chosen from the search results is recorded, and the registration completed if it can be. */
  function SelectRestManager(w: World, u: UserId, data: Dict, env: Env): (r: Res)
    ensures r.Done?
  {
    if "uid" !in data then Raise(w, [])
    else
      var uid := data["uid"];
      var st := GetUserState(w.states, u);
      var pending := Or(Or(Get(st, "pending_rest"), Get(st, "data")), Obj(map[]));
      match PyInt(uid)
      case None => Raise(w, [])
      case Some(chat) =>
        if !pending.Obj? then Raise(w, [])
        else
          var w1 := SetState(w, u, map["pending_rest" := Obj(pending.fields["manager_chat_id" := Int(chat)])]);
          var before := [Answer(ManagerSelected), Send(u, ManagerAssigned(uid))];
          var rest := AttemptFinish(w1, u, env);
          Done(rest.w, before + rest.out)
  }

  // ---------------------------------------------------------------- choose_food and pick_qty

  /** The quantities offered for a dish. */
  const Quantities: seq<int> := [1, 2, 3, 4, 5]

  /** The payload of the button for one quantity. */
  function QtyPayload(rid: Value, fname: Value, qty: int): (v: Value)
    ensures v.Obj? && Get(v.fields, "action") == Str("pick_qty") && Get(v.fields, "qty") == Int(qty)
    ensures Get(v.fields, "rid") == rid && Get(v.fields, "food_name") == fname
  {
    Obj(map["action" := Str("pick_qty"), "rid" := rid, "food_name" := fname, "qty" := Int(qty)])
  }

  /** The five buttons, one per quantity. */
  function QtyButtons(rid: Value, fname: Value): (bs: seq<Value>)
    ensures |bs| == |Quantities|
    ensures forall i :: 0 <= i < |bs| ==> bs[i] == QtyPayload(rid, fname, Quantities[i])
  {
    seq(|Quantities|, i requires 0 <= i < |Quantities| => QtyPayload(rid, fname, Quantities[i]))
  }

  /** choose_food: the quantity buttons for the dish. Nothing is written. */
  function ChooseFood(w: World, u: UserId, data: Dict): (r: Res)
    ensures r.Done? && r.w == w
  {
    if "rid" !in data || "food_name" !in data then Raise(w, [])
    else Done(w, [Send(u, ChooseQuantity(QtyButtons(data["rid"], data["food_name"]))), Answer(Ack)])
  }

  /** f["name"] can be read: f is a record with a name. */
  predicate Named(f: Value)
  {
    f.Obj? && "name" in f.fields
  }

  /** Where next(...) stops: the first dish that is not a named record or has the name; |items| if none. */
  function LookupStop(items: seq<Value>, fname: Value): (i: nat)
    ensures i <= |items|
    ensures forall j :: 0 <= j < i ==> Named(items[j]) && items[j].fields["name"] != fname
    ensures i < |items| ==> !Named(items[i]) || items[i].fields["name"] == fname
    decreases |items|
  {
    if items == [] || !Named(items[0]) || items[0].fields["name"] == fname then 0
    else LookupStop(items[1..], fname) + 1
  }

  /**
   * next((f for f in dishes if f["name"] == fname), None): Some(None) when
   * no dish has the name, None when reading a name raises first.
   */
  function FindDish(items: seq<Value>, fname: Value): (r: Option<Option<Dict>>)
    ensures r == Some(None) <==> LookupStop(items, fname) == |items|
    ensures r.None? <==> LookupStop(items, fname) < |items| && !Named(items[LookupStop(items, fname)])
    ensures r.Some? && r.value.Some? ==>
              items[LookupStop(items, fname)] == Obj(r.value.value) && Get(r.value.value, "name") == fname
    decreases |items|
  {
    if items == [] then Some(None)
    else if !items[0].Obj? || "name" !in items[0].fields then None
    else if items[0].fields["name"] == fname then Some(Some(items[0].fields))
    else FindDish(items[1..], fname)
  }

  /**
   * pick_qty's lookup as written: rest.get("foods", []) is iterated
   * directly, so a keyed dish record yields its key strings and f["name"]
   * raises on the first of them.
   */
  function PickLookupAsWritten(rest: Dict, fname: Value): (r: Option<Option<Dict>>)
    ensures GetOr(rest, "foods", Arr([])).Obj? && GetOr(rest, "foods", Arr([])).fields != map[] ==> r.None?
    ensures GetOr(rest, "foods", Arr([])).Arr? ==> r == FindDish(GetOr(rest, "foods", Arr([])).items, fname)
  {
    match IterateAsWritten(GetOr(rest, "foods", Arr([])))
    case None => None
    case Some(items) => KeysAreNotDishes(GetOr(rest, "foods", Arr([])), items); FindDish(items, fname)
  }

  /** Iterating a non-empty record yields a string first, which is not a named record. */
  lemma KeysAreNotDishes(foods: Value, items: seq<Value>)
    requires IterateAsWritten(foods) == Some(items)
    ensures foods.Obj? && foods.fields != map[] ==> items != [] && !Named(items[0])
  {
    if foods.Obj? && foods.fields != map[] {
      assert |items| == |foods.fields| > 0;
      assert items[0] in items;
    }
  }

  /**
   * pick_qty's lookup as evidently intended: the dishes are read with
   * Dishes, so a dish stored under foods/<id> is found by its name. On a
   * list of dishes it is the lookup as written.
   */
  function PickLookup(rest: Dict, fname: Value): (r: Option<Option<Dict>>)
    ensures !GetOr(rest, "foods", Arr([])).Obj? ==> r == PickLookupAsWritten(rest, fname)
    ensures GetOr(rest, "foods", Arr([])).Obj? && r.Some? && r.value.Some? ==>
              Obj(r.value.value) in GetOr(rest, "foods", Arr([])).fields.Values && Get(r.value.value, "name") == fname
  {
    match Dishes(GetOr(rest, "foods", Arr([])))
    case None => None
    case Some(items) => FindDish(items, fname)
  }

  /** A restaurant whose one dish was written under foods/<id>. */
  const KeyedRestaurant: Dict := map["name" := Str("Cafe"), "foods" := Obj(map["ab12cd34" := Obj(Soup)])]

  /** As written, picking the soup from a keyed menu raises. */
  lemma KeyedPickAsWritten()
    ensures PickLookupAsWritten(KeyedRestaurant, Str("soup")) == None
  {
    assert GetOr(KeyedRestaurant, "foods", Arr([])) == Obj(map["ab12cd34" := Obj(Soup)]);
  }

  /** As intended, picking the soup from a keyed menu finds it. */
  lemma KeyedPickIntended()
    ensures PickLookup(KeyedRestaurant, Str("soup")) == Some(Some(Soup))
  {
    assert GetOr(KeyedRestaurant, "foods", Arr([])) == Obj(map["ab12cd34" := Obj(Soup)]);
    SingleDish("ab12cd34", Obj(Soup));
    assert FindDish([Obj(Soup)], Str("soup")) == Some(Some(Soup));
  }

  /** The order pick_qty leaves pending: one line of qty dishes at the dish's price. */
  function PendingOrder(rid: Value, rest: Dict, fname: Value, qty: int, unit: real, u: UserId,
                        fullName: string, phone: Value): (o: Dict)
    ensures Get(o, "total_price") == Num(unit * qty as real)
    ensures Get(o, "items") == Arr([Obj(map["name" := fname, "qty" := Int(qty), "price" := Num(unit * qty as real)])])
    ensures Get(o, "restaurant_id") == rid && Get(o, "restaurant_name") == Get(rest, "name")
    ensures Get(o, "user_id") == Str(UserKey(u)) && Get(o, "user_name") == Str(fullName) && Get(o, "phone") == phone
  {
    var price := unit * qty as real;
    map["restaurant_id" := rid, "restaurant_name" := Get(rest, "name"),
        "items" := Arr([Obj(map["name" := fname, "qty" := Int(qty), "price" := Num(price)])]),
        "total_price" := Num(price), "user_id" := Str(UserKey(u)), "user_name" := Str(fullName),
        "phone" := phone]
  }

  /** pick_qty: the dish is looked up and the order left pending until a time is given. */
  function PickQty(w: World, u: UserId, data: Dict, fullName: string): (r: Res)
    ensures r.Done?
  {
    if "rid" !in data || "food_name" !in data || "qty" !in data then Raise(w, [])
    else
      var rid := data["rid"];
      var fname := data["food_name"];
      match PyInt(data["qty"])
      case None => Raise(w, [])
      case Some(qty) =>
        match PathKey(rid)
        case None => Raise(w, [])
        case Some(rk) =>
          if rk !in w.restaurants then Raise(w, [])
          else
            var rest := w.restaurants[rk];
            match PickLookup(rest, fname)
              case None => Raise(w, [])
              case Some(None) => Done(w, [Answer(FoodNotFound)])
              case Some(Some(food)) =>
                match PyFloat(GetOr(food, "price", Int(0)))
                case None => Raise(w, [])
                case Some(unit) =>
                  var phone := Get(RecordOf(w.users, UserKey(u)), "phone");
                  var pending := PendingOrder(rid, rest, fname, qty, unit, u, fullName, phone);
                  Done(SetState(w, u, map["awaiting_schedule" := T, "pending_order" := Obj(pending)]),
                       [Send(u, AskSchedule), Answer(Ack)])
  }

  // ---------------------------------------------------------------- dispatch

  /** The actions whose branches this model does not cover. */
  const OtherActions: set<string> :=
    {"edit_page", "food_page", "add_food_existing", "cancel_add_rest_food", "confirm_delete_rest",
     "add_existing_food", "select_rest", "view_menu", "select_rest_food"}

  /**
   * callback_handler: raw is the button's payload, parsed what json.loads
   * makes of it (None when it raises), fullName the presser's name.
   */
  function HandleCallback(w: World, u: UserId, raw: string, parsed: Option<Value>, fullName: string, env: Env): (r: Res)
    ensures r.Done?
  {
    if raw == "add_rest_send_image" then
      var st := GetUserState(w.states, u);
      Done(SetState(w, u, st["awaiting_rest_image" := T]), [Answer(Ack), Send(u, AskPhoto)])
    else if raw == "add_rest_skip_image" then
      var st := GetUserState(w.states, u);
      if "data" !in st then Raise(w, [])
      else
        var saved := SaveRestaurantAndFinish(w, u, st["data"], env);
        if Crash in saved.out then saved else Done(saved.w, saved.out + [Answer(Ack)])
    else match parsed
      case None => Done(w, [Answer(InvalidCallback)])
      case Some(v) =>
        if !v.Obj? then Raise(w, [])
        else
          var data := v.fields;
          var action := Get(data, "action");
          if action == Str("add_food_new") then
            if "rid" !in data then Raise(w, [])
            else Done(SetState(w, u, map["add_food_mode" := T, "rid" := data["rid"], "step" := Str("name")]),
                      [Send(u, AskNewFoodName), Answer(Ack)])
          else if action == Str("edit_search") then
            Done(SetState(w, u, map["awaiting_edit_search" := T]), [Answer(Ack), Send(u, AskEditSearch)])
          else if action == Str("edit_rest") then EditRest(w, u, data)
          else if action == Str("add_rest_select_manager") then SelectRestManager(w, u, data, env)
          else if action == Str("choose_food") then ChooseFood(w, u, data)
          else if action == Str("pick_qty") then PickQty(w, u, data, fullName)
          else if action.Str? && action.s in OtherActions then Done(w, [Answer(Unmodelled(action))])
          else Done(w, [Answer(UnknownAction)])
  }
}
