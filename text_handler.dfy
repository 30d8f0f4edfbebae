/**
 * general_text_handler (bot.py): a text message is matched against the
 * user's conversation state by a chain of guards, tried in order; the first
 * guard that handles the message ends the chain, and the menu texts come
 * last. Every guard reads the state as it was when the message arrived.
 */
module TextHandler {
  import opened Wrappers
  import opened Text
  import opened Numerals
  import opened Json
  import opened KeyOrder
  import opened StateStore
  import opened Aggregates
  import opened Jobs
  import opened Listing
  import opened BotWorld

  // ---------------------------------------------------------------- add_food_mode

  /** The dish the price step saves: the state's dish with its price. */
  function PricedFood(food: Dict, price: real): (r: Dict)
    ensures Get(r, "price") == Num(price)
    ensures forall k :: k != "price" ==> Get(r, k) == Get(food, k)
  {
    food["price" := Num(price)]
  }

  /**
   * Adding a dish to a restaurant, one question at a time: its name, then
   * its price, which parse_price must read as a positive number.
   */
  function AddFoodMode(w: World, u: UserId, st: Dict, raw: string, env: Env): (r: Res)
  {
    var t := Strip(raw);
    if !Truthy(Get(st, "add_food_mode")) then Next(w)
    else if "rid" !in st || "step" !in st then Raise(w, [])
    else if st["step"] == Str("name") then
      var st' := st["food" := Obj(map["name" := Str(t)])]["step" := Str("price")];
      Done(SetState(w, u, st'), [Send(u, AskFoodPrice)])
    else if st["step"] == Str("price") then
      match ParsePrice(raw)
      case None => Done(w, [Send(u, InvalidPrice)])
      case Some(p) => if p <= 0.0 then Done(w, [Send(u, InvalidPrice)]) else SaveDish(w, u, st, p, env)
    else Next(w)
  }

  /** The name step of add_food_mode keeps the dish's name in the state and asks for its price. */
  lemma AddFoodModeNameStep(w: World, u: UserId, st: Dict, raw: string, env: Env)
    requires Truthy(Get(st, "add_food_mode")) && "rid" in st && Get(st, "step") == Str("name")
    ensures var r := AddFoodMode(w, u, st, raw, env);
            && r == Done(r.w, [Send(u, AskFoodPrice)])
            && r.w.restaurants == w.restaurants
            && Get(GetUserState(r.w.states, u), "step") == Str("price")
            && Get(GetUserState(r.w.states, u), "food") == Obj(map["name" := Str(Strip(raw))])
  {
    assert "food" != "step" by { assert "food"[0] != "step"[0]; }
    var st' := st["food" := Obj(map["name" := Str(Strip(raw))])]["step" := Str("price")];
    assert AddFoodMode(w, u, st, raw, env) == Done(SetState(w, u, st'), [Send(u, AskFoodPrice)]);
    assert "step" in st' && "food" in st';
  }

  /** The price step once the price is positive: the dish is stored under a fresh id. */
  function SaveDish(w: World, u: UserId, st: Dict, p: real, env: Env): (r: Res)
    requires "rid" in st
    ensures r.Done?
  {
    if "food" !in st || !st["food"].Obj? then Raise(w, [])
    else
      var food := PricedFood(st["food"].fields, p);
      match PathKey(st["rid"])
      case None => Raise(w, [])
      case Some(rk) =>
        var w1 := w.(restaurants := WithGrandchild(w.restaurants, rk, "foods", env.freshId, Obj(food)));
        var w2 := ClearState(w1, u);
        if "name" !in food then Raise(w2, [])
        else Done(w2, [Send(u, FoodAddedToRestaurant(food["name"]))])
  }

  /** A positive price at the price step goes on to SaveDish. */
  lemma PriceStepDispatches(w: World, u: UserId, st: Dict, raw: string, env: Env, p: real)
    requires Truthy(Get(st, "add_food_mode")) && "rid" in st && Get(st, "step") == Str("price")
    requires ParsePrice(raw) == Some(p) && p > 0.0
    ensures AddFoodMode(w, u, st, raw, env) == SaveDish(w, u, st, p, env)
  {
    assert Str("price") != Str("name") by {
      assert "price"[0] != "name"[0];
    }
  }

  /** A named dish for a restaurant whose id is a valid key is stored and announced. */
  lemma SaveDishStores(w: World, u: UserId, st: Dict, p: real, env: Env, rk: string)
    requires "rid" in st && PathKey(st["rid"]) == Some(rk) && Get(st, "food").Obj? && "name" in st["food"].fields
    ensures var food := st["food"].fields;
            SaveDish(w, u, st, p, env) ==
            Done(ClearState(w.(restaurants := WithGrandchild(w.restaurants, rk, "foods", env.freshId, Obj(PricedFood(food, p)))), u),
                 [Send(u, FoodAddedToRestaurant(food["name"]))])
  {
    var priced := PricedFood(st["food"].fields, p);
    assert "name" in priced && priced["name"] == st["food"].fields["name"] by {
      assert Get(priced, "name") == Get(st["food"].fields, "name");
    }
  }

  // ---------------------------------------------------------------- awaiting_search

  function RestaurantReply(u: UserId, o: Outcome<RestaurantHit>): (out: seq<Effect>)
    ensures o.Raises? <==> out == [Crash]
  {
    match o
    case Raises => [Crash]
    case NoHits => [Send(u, NoRestaurantsFound)]
    case Hits(hs) => [Send(u, RestaurantResults(hs))]
  }

  function FoodReply(u: UserId, o: Outcome<FoodHit>): (out: seq<Effect>)
    ensures o.Raises? <==> out == [Crash]
  {
    match o
    case Raises => [Crash]
    case NoHits => [Send(u, NoFoodMatches)]
    case Hits(hs) => [Send(u, FoodResults(hs))]
  }

  /**
   * A pending search: the state is emptied first, then the text is searched
   * for by restaurant or by dish. Any other kind of search falls through,
   * with the state already emptied.
   */
  function AwaitingSearch(w: World, u: UserId, st: Dict, raw: string): (r: Res)
  {
    var t := Strip(raw);
    if !Truthy(Get(st, "awaiting_search")) then Next(w)
    else
      var kind := Get(st, "awaiting_search_type");
      var w1 := SetState(w, u, map[]);
      if kind == Str("restaurant") then Done(w1, RestaurantReply(u, SearchRestaurants(w1.restaurants, t)))
      else if kind == Str("food") then Done(w1, FoodReply(u, SearchFoods(w1.restaurants, t)))
      else Next(w1)
  }

  /**
   * A pending search empties the state, then answers the search it names;
   * the answer is a crash exactly when that search raises.
   */
  lemma AwaitingSearchReplies(w: World, u: UserId, st: Dict, raw: string)
    requires Truthy(Get(st, "awaiting_search"))
    ensures var r := AwaitingSearch(w, u, st, raw);
            var kind := Get(st, "awaiting_search_type");
            && r.w == SetState(w, u, map[])
            && (r.Next? <==> kind != Str("restaurant") && kind != Str("food"))
            && (kind == Str("restaurant") ==> r.Done? && (r.out == [Crash] <==> SearchRestaurants(w.restaurants, Strip(raw)).Raises?))
            && (kind == Str("food") ==> r.Done? && (r.out == [Crash] <==> SearchFoods(w.restaurants, Strip(raw)).Raises?))
  {
  }

  // ---------------------------------------------------------------- editing_rest

  /** The state that asks for one field of the restaurant being edited. */
  function EditStep(rid: Value, step: string): Dict
  {
    map["editing_rest" := T, "rid" := rid, "edit_step" := Str(step)]
  }

  /** The buttons of the restaurant editor. */
  function EditingRest(w: World, u: UserId, st: Dict, raw: string): (r: Res)
  {
    var t := Strip(raw);
    if !Truthy(Get(st, "editing_rest")) then Next(w)
    else if "rid" !in st then Raise(w, [])
    else
      var rid := st["rid"];
      if t == "\U{270F}\U{FE0F} Name" then Done(SetState(w, u, EditStep(rid, "name")), [Send(u, AskNewName)])
      else if t == "\U{1F4CD} Location" then Done(SetState(w, u, EditStep(rid, "location")), [Send(u, AskNewLocation)])
      else if t == "\U{1F5BC} Image" then Done(SetState(w, u, EditStep(rid, "image")), [Send(u, AskNewPhoto)])
      else if t == "\U{2795} Add Food" then
        Done(SetState(w, u, map["editing_rest" := T, "rid" := rid]), [Send(u, HowToAddFood(rid))])
      else if t == "\U{274C} Cancel" then Done(ClearState(w, u), [Send(u, EditCancelled)])
      else Next(w)
  }

  /** The editor's name button asks for the new name of the same restaurant and writes nothing but the state. */
  lemma EditingRestNameButton(w: World, u: UserId, st: Dict, raw: string)
    requires Truthy(Get(st, "editing_rest")) && "rid" in st && Strip(raw) == "\U{270F}\U{FE0F} Name"
    ensures var r := EditingRest(w, u, st, raw);
            && r == Done(r.w, [Send(u, AskNewName)])
            && StatesOnly(w, r.w)
            && Get(GetUserState(r.w.states, u), "editing_rest") == T
            && Get(GetUserState(r.w.states, u), "edit_step") == Str("name")
            && Get(GetUserState(r.w.states, u), "rid") == st["rid"]
  {
    var partial := EditStep(st["rid"], "name");
    assert EditingRest(w, u, st, raw) == Done(SetState(w, u, partial), [Send(u, AskNewName)]);
    assert "editing_rest" in partial && "edit_step" in partial && "rid" in partial;
  }

  /** The editor's cancel button empties the state and writes nothing else. */
  lemma EditingRestCancel(w: World, u: UserId, st: Dict, raw: string)
    requires Truthy(Get(st, "editing_rest")) && "rid" in st && Strip(raw) == "\U{274C} Cancel"
    ensures var r := EditingRest(w, u, st, raw);
            r == Done(r.w, [Send(u, EditCancelled)]) && StatesOnly(w, r.w) && GetUserState(r.w.states, u) == map[]
  {
    var cancel := "\U{274C} Cancel";
    assert cancel != "\U{270F}\U{FE0F} Name" && cancel != "\U{1F4CD} Location" && cancel != "\U{1F5BC} Image" &&
           cancel != "\U{2795} Add Food" by {
      assert cancel[0] == '\U{274C}';
    }
  }

  /** The new name of the restaurant being edited. */
  function EditName(w: World, u: UserId, st: Dict, raw: string): (r: Res)
  {
    var t := Strip(raw);
    if !(Truthy(Get(st, "editing_rest")) && Get(st, "edit_step") == Str("name")) then Next(w)
    else if "rid" !in st then Raise(w, [])
    else match PathKey(st["rid"])
      case None => Raise(w, [])
      case Some(rk) =>
        var w1 := w.(restaurants := WithChild(w.restaurants, rk, "name", Str(t)));
        Done(ClearState(w1, u), [Send(u, NameUpdated)])
  }

  /** The new name is written to that restaurant alone, its other fields kept, and the state is emptied. */
  lemma EditNameRenames(w: World, u: UserId, st: Dict, raw: string, rk: string)
    requires Truthy(Get(st, "editing_rest")) && Get(st, "edit_step") == Str("name") && "rid" in st
    requires PathKey(st["rid"]) == Some(rk)
    ensures var r := EditName(w, u, st, raw);
            && r == Done(r.w, [Send(u, NameUpdated)])
            && Get(RecordOf(r.w.restaurants, rk), "name") == Str(Strip(raw))
            && (forall c :: c != "name" ==> Get(RecordOf(r.w.restaurants, rk), c) == Get(RecordOf(w.restaurants, rk), c))
            && (forall j :: j != rk ==> RecordOf(r.w.restaurants, j) == RecordOf(w.restaurants, j))
            && GetUserState(r.w.states, u) == map[]
  {
  }

  /** The restaurant editor's search: the first page of matching restaurants. */
  function AwaitingEditSearch(w: World, u: UserId, st: Dict, raw: string): (r: Res)
  {
    var t := Strip(raw);
    if !Truthy(Get(st, "awaiting_edit_search")) then Next(w)
    else
      var w1 := ClearState(w, u);
      match BuildRestaurantPage(w1.restaurants, 0, Str(t))
      case None => Raise(w1, [])
      case Some(p) => Done(w1, [Send(u, EditSearchResults(t, p))])
  }

  /** The editor's search empties the state, and raises exactly when some stored name is not text. */
  lemma AwaitingEditSearchPages(w: World, u: UserId, st: Dict, raw: string)
    requires Truthy(Get(st, "awaiting_edit_search"))
    ensures var r := AwaitingEditSearch(w, u, st, raw);
            r.Done? && r.w == ClearState(w, u) && (r.out == [Crash] <==> !AllNamed(w.restaurants))
  {
  }

  // ---------------------------------------------------------------- awaiting_food_data

  /** The dish saved from `Name | People | Description`. */
  function SharedDish(pieces: seq<string>, people: int): (d: Dict)
    requires |pieces| == 3
    ensures Get(d, "name") == Str(pieces[0]) && Get(d, "people") == Int(people) && Get(d, "description") == Str(pieces[2])
  {
    map["name" := Str(pieces[0]), "people" := Int(people), "description" := Str(pieces[2])]
  }

  /**
   * A line already split into its three fields whose middle one is an
   * integer: the dish saved under the fresh id, the state emptied and
   * nothing else written.
   */
  function SaveSharedDish(w: World, u: UserId, pieces: seq<string>, env: Env): (r: Res)
    requires |pieces| == 3
    ensures ParseIntLiteral(pieces[1]).Some? ==>
              && r == Done(r.w, [Send(u, FoodSaved(pieces[0]))])
              && r.w == w.(states := r.w.states, sharedFoods := r.w.sharedFoods)
              && r.w.sharedFoods.Keys == w.sharedFoods.Keys + {env.freshId}
              && r.w.sharedFoods[env.freshId] == SharedDish(pieces, ParseIntLiteral(pieces[1]).value)
              && GetUserState(r.w.states, u) == map[]
  {
    match ParseIntLiteral(pieces[1])
    case None => Raise(w, [])
    case Some(people) =>
      var w1 := w.(sharedFoods := w.sharedFoods[env.freshId := SharedDish(pieces, people)]);
      Done(ClearState(w1, u), [Send(u, FoodSaved(pieces[0]))])
  }

  /** When the middle field is not an integer, int() raises before anything is written. */
  lemma SaveSharedDishRaises(w: World, u: UserId, pieces: seq<string>, env: Env)
    requires |pieces| == 3 && ParseIntLiteral(pieces[1]).None?
    ensures SaveSharedDish(w, u, pieces, env) == Done(w, [Crash])
  {
  }

  /** A shared dish given as `Name | People | Description`. */
  function AwaitingFoodData(w: World, u: UserId, st: Dict, raw: string, env: Env): (r: Res)
  {
    if !Truthy(Get(st, "awaiting_food_data")) then Next(w)
    else
      var pieces := StripAll(Split(raw, '|'));
      if |pieces| != 3 then Done(w, [Send(u, InvalidFoodFormat)])
      else SaveSharedDish(w, u, pieces, env)
  }

  /**
   * Under its flag the step splits the line at '|' and strips each field:
   * a line without exactly three fields is asked for again and nothing is
   * written, and a line of three goes on to SaveSharedDish.
   */
  lemma AwaitingFoodDataSplits(w: World, u: UserId, st: Dict, raw: string, env: Env)
    requires Truthy(Get(st, "awaiting_food_data"))
    ensures var pieces := StripAll(Split(raw, '|'));
            && (|pieces| != 3 ==> AwaitingFoodData(w, u, st, raw, env) == Done(w, [Send(u, InvalidFoodFormat)]))
            && (|pieces| == 3 ==> AwaitingFoodData(w, u, st, raw, env) == SaveSharedDish(w, u, pieces, env))
  {
  }

  // ---------------------------------------------------------------- reg_rest_step

  /**
   * any(r.get("name", "").lower() == name.lower() for r in restaurants), in
   * the order the store delivers them: None when a name that is not a
   * string is reached before a match.
   */
  function NameClash(keys: seq<string>, rs: map<string, Dict>, name: string): (r: Option<bool>)
    requires forall k :: k in keys ==> k in rs
    decreases |keys|
  {
    if keys == [] then Some(false)
    else match TextOr(rs[keys[0]], "name")
      case None => None
      case Some(n) => if Lower(n) == Lower(name) then Some(true) else NameClash(keys[1..], rs, name)
  }

  /** A dish typed as `Name | Ingredients | Price | Quantity`. */
  function CustomFood(pieces: seq<string>): Value
    requires |pieces| == 4
  {
    Obj(map["name" := Str(pieces[0]), "ingredients" := Str(pieces[1]),
            "price" := Str(pieces[2]), "quantity" := Str(pieces[3])])
  }

  /** The restaurant a manager registers, asked for field by field. */
  function RegRestStep(w: World, u: UserId, st: Dict, raw: string, env: Env): (r: Res)
  {
    var t := Strip(raw);
    if !Truthy(Get(st, "reg_rest_step")) then Next(w)
    else if "new_rest" !in st then Raise(w, [])
    else
      var step := st["reg_rest_step"];
      var data := st["new_rest"];
      if step == Str("name") then
        match NameClash(SortedKeys(w.restaurants), w.restaurants, t)
        case None => Raise(w, [])
        case Some(true) => Done(w, [Send(u, NameExists)])
        case Some(false) =>
          if !data.Obj? then Raise(w, [])
          else
            var data' := data.fields["name" := Str(t)];
            Done(SetState(w, u, map["reg_rest_step" := Str("foods"), "new_rest" := Obj(data')]), [Send(u, ChooseFoods)])
      else if step == Str("custom_food") then
        var pieces := StripAll(Split(t, '|'));
        if |pieces| != 4 then Done(w, [Send(u, InvalidCustomFood)])
        else if !data.Obj? then Raise(w, [])
        else
          var foods := GetOr(data.fields, "foods", Arr([]));
          if !foods.Arr? then Raise(w, [])
          else
            var data' := data.fields["foods" := Arr(foods.items + [CustomFood(pieces)])];
            Done(SetState(w, u, map["reg_rest_step" := Str("foods"), "new_rest" := Obj(data')]),
                 [Send(u, CustomFoodAdded(pieces[0]))])
      else if step == Str("description") then
        if !data.Obj? then Raise(w, []) else Submit(w, u, data.fields, t, env)
      else Next(w)
  }

  /** The description step of the registration is the submission. */
  lemma RegRestStepSubmits(w: World, u: UserId, st: Dict, raw: string, env: Env)
    requires Truthy(Get(st, "reg_rest_step")) && "new_rest" in st && st["reg_rest_step"] == Str("description")
    requires st["new_rest"].Obj?
    ensures RegRestStep(w, u, st, raw, env) == Submit(w, u, st["new_rest"].fields, Strip(raw), env)
  {
    assert Str("description") != Str("name") by { assert "description"[0] != "name"[0]; }
    assert Str("description") != Str("custom_food") by { assert "description"[0] != "custom_food"[0]; }
  }

  /**
   * The description step: the state is emptied, then every administrator is
   * sent the request, with the description and the manager added; the
   * summary's name and dish count raise when the name is missing or the
   * dishes are not something len() accepts.
   */
  function Submit(w: World, u: UserId, data: Dict, t: string, env: Env): (r: Res)
  {
    var data' := Submission(data, t, u);
    var w1 := SetState(w, u, map[]);
    var foods := GetOr(data', "foods", Arr([]));
    if "name" !in data' || !Sized(foods) then Raise(w1, [])
    else Done(w1, ToAdmins(env.admins, data') + [Send(u, SentForApproval)])
  }

  /**
   * Without a name, or with dishes that len() refuses, the submission
   * empties the state and then raises, before any message is sent.
   */
  lemma SubmitRaises(w: World, u: UserId, data: Dict, t: string, env: Env)
    requires "name" !in data || !Sized(GetOr(data, "foods", Arr([])))
    ensures Submit(w, u, data, t, env) == Done(SetState(w, u, map[]), [Crash])
  {
    var data' := Submission(data, t, u);
    assert GetOr(data', "foods", Arr([])) == GetOr(data, "foods", Arr([]));
    assert "name" in data' <==> "name" in data;
  }

  /**
   * Otherwise the submission empties the state, sends every administrator,
   * in order, the registration with the description and the manager
   * added, then tells the manager; nothing raises.
   */
  lemma SubmitSends(w: World, u: UserId, data: Dict, t: string, env: Env)
    requires "name" in data && Sized(GetOr(data, "foods", Arr([])))
    ensures var r := Submit(w, u, data, t, env);
            && r.Done? && r.w == SetState(w, u, map[]) && GetUserState(r.w.states, u) == map[]
            && Crash !in r.out
            && |r.out| == |env.admins| + 1
            && r.out[|env.admins|] == Send(u, SentForApproval)
            && forall i :: 0 <= i < |env.admins| ==> r.out[i] == Send(env.admins[i], ApprovalRequest(Submission(data, t, u)))
  {
    var data' := Submission(data, t, u);
    assert GetOr(data', "foods", Arr([])) == GetOr(data, "foods", Arr([]));
    var out := ToAdmins(env.admins, data') + [Send(u, SentForApproval)];
    assert Submit(w, u, data, t, env).out == out;
    assert forall i :: 0 <= i < |out| ==> out[i] != Crash;
  }

  /** The registration as the administrators receive it: the description and the manager added. */
  function Submission(data: Dict, t: string, u: UserId): (d: Dict)
    ensures Get(d, "description") == Str(t) && Get(d, "manager_id") == Int(u)
    ensures forall k :: k != "description" && k != "manager_id" ==> Get(d, k) == Get(data, k)
  {
    data["description" := Str(t)]["manager_id" := Int(u)]
  }

  /** The values Python's len() accepts: a list, a dictionary or a string. */
  predicate Sized(v: Value)
  {
    v.Arr? || v.Obj? || v.Str?
  }

  /** The approval request, once to every administrator. */
  function ToAdmins(admins: seq<UserId>, request: Dict): (out: seq<Effect>)
    ensures |out| == |admins|
    ensures forall i :: 0 <= i < |admins| ==> out[i] == Send(admins[i], ApprovalRequest(request))
  {
    seq(|admins|, i requires 0 <= i < |admins| => Send(admins[i], ApprovalRequest(request)))
  }

  // ---------------------------------------------------------------- add_flow

  /** The state that starts adding a restaurant or a dish: its flag, the first step, no data yet. */
  function FlowStart(flag: string): (d: Dict)
    requires flag != "step" && flag != "data" && flag != "add_flow"
    ensures d.Keys == {flag, "step", "data", "add_flow"}
    ensures d[flag] == T && d["step"] == Str("name") && d["data"] == Obj(map[]) && d["add_flow"] == F
  {
    map[flag := T, "step" := Str("name"), "data" := Obj(map[]), "add_flow" := F]
  }

  /** What the administrator adds: a restaurant or a dish. */
  function AddFlow(w: World, u: UserId, st: Dict, raw: string): (r: Res)
  {
    var t := Strip(raw);
    if !Truthy(Get(st, "add_flow")) then Next(w)
    else if t == "\U{1F37D} Restaurant" then
      Done(SetState(w, u, FlowStart("add_rest")), [Send(u, AskRestaurantName)])
    else if t == "\U{1F354} Food" then
      Done(SetState(w, u, FlowStart("add_food")), [Send(u, AskFoodName)])
    else Next(w)
  }

  /** The restaurant button starts the restaurant flow at its name step, writing nothing but the state. */
  lemma AddFlowRestaurant(w: World, u: UserId, st: Dict, raw: string)
    requires Truthy(Get(st, "add_flow")) && Strip(raw) == "\U{1F37D} Restaurant"
    ensures var r := AddFlow(w, u, st, raw);
            && r == Done(r.w, [Send(u, AskRestaurantName)])
            && r.w == w.(states := r.w.states)
            && Get(GetUserState(r.w.states, u), "add_rest") == T
            && Get(GetUserState(r.w.states, u), "step") == Str("name")
            && Get(GetUserState(r.w.states, u), "add_flow") == F
  {
  }

  /** The food button starts the dish flow at its name step, writing nothing but the state. */
  lemma AddFlowFood(w: World, u: UserId, st: Dict, raw: string)
    requires Truthy(Get(st, "add_flow")) && Strip(raw) == "\U{1F354} Food"
    ensures var r := AddFlow(w, u, st, raw);
            && r == Done(r.w, [Send(u, AskFoodName)])
            && r.w == w.(states := r.w.states)
            && Get(GetUserState(r.w.states, u), "add_food") == T
            && Get(GetUserState(r.w.states, u), "step") == Str("name")
            && Get(GetUserState(r.w.states, u), "add_flow") == F
  {
    assert "\U{1F354} Food" != "\U{1F37D} Restaurant" by {
      assert "\U{1F354} Food"[0] != "\U{1F37D} Restaurant"[0];
    }
  }

  // ---------------------------------------------------------------- add_rest

  /** str(u.get(k, "")) */
  function FieldText(d: Dict, k: string): string
  {
    PyStr(GetOr(d, k, Str("")))
  }

  /** The users whose phone or name contains the query, as the manager search compares them. */
  function UserMatches(keys: seq<string>, users: map<string, Dict>, query: string): (r: seq<string>)
    requires forall k :: k in keys ==> k in users
    ensures forall k :: k in r <==> (k in keys &&
              (Contains(Lower(FieldText(users[k], "phone")), query) || Contains(Lower(FieldText(users[k], "name")), query)))
    decreases |keys|
  {
    if keys == [] then []
    else
      var hit := Contains(Lower(FieldText(users[keys[0]], "phone")), query) ||
                 Contains(Lower(FieldText(users[keys[0]], "name")), query);
      (if hit then [keys[0]] else []) + UserMatches(keys[1..], users, query)
  }

  /** The restaurant an administrator adds: name, phone, then the manager's search. */
  function AddRest(w: World, u: UserId, st: Dict, raw: string): (r: Res)
  {
    var t := Strip(raw);
    if !(Truthy(Get(st, "add_rest")) && Truthy(Get(st, "step"))) then Next(w)
    else
      var data := GetOr(st, "data", Obj(map[]));
      var step := st["step"];
      if step == Str("name") then
        if !data.Obj? then Raise(w, [])
        else Done(SetState(w, u, map["add_rest" := T, "step" := Str("phone"), "data" := Obj(data.fields["name" := Str(t)])]),
                  [Send(u, AskPhone)])
      else if step == Str("phone") then
        if !data.Obj? then Raise(w, [])
        else Done(SetState(w, u, map["add_rest" := T, "step" := Str("location"), "data" := Obj(data.fields["phone" := Str(t)])]),
                  [Send(u, AskLocation)])
      else if step == Str("manager") then
        var found := UserMatches(SortedKeys(w.users), w.users, Lower(t));
        if found == [] then Done(w, [Send(u, NoUserFound)])
        else Done(w, [Send(u, SelectManager(Take(found, 5)))])
      else Next(w)
  }

  /** The name step keeps the name in the registration's data and moves on to the phone. */
  lemma AddRestNameStep(w: World, u: UserId, st: Dict, raw: string)
    requires Truthy(Get(st, "add_rest")) && Get(st, "step") == Str("name") && GetOr(st, "data", Obj(map[])).Obj?
    ensures var r := AddRest(w, u, st, raw);
            && r == Done(r.w, [Send(u, AskPhone)])
            && r.w == w.(states := r.w.states)
            && Get(GetUserState(r.w.states, u), "step") == Str("phone")
            && Get(GetUserState(r.w.states, u), "data") == Obj(GetOr(st, "data", Obj(map[])).fields["name" := Str(Strip(raw))])
  {
    var data := GetOr(st, "data", Obj(map[]));
    var partial := map["add_rest" := T, "step" := Str("phone"), "data" := Obj(data.fields["name" := Str(Strip(raw))])];
    assert AddRest(w, u, st, raw) == Done(SetState(w, u, partial), [Send(u, AskPhone)]);
    assert "step" in partial && "data" in partial;
  }

  /** The manager search writes nothing and offers the first five users whose phone or name matches. */
  lemma AddRestManagerSearch(w: World, u: UserId, st: Dict, raw: string)
    requires Truthy(Get(st, "add_rest")) && Get(st, "step") == Str("manager")
    ensures var r := AddRest(w, u, st, raw);
            var found := UserMatches(SortedKeys(w.users), w.users, Lower(Strip(raw)));
            && r.Done? && r.w == w
            && (found == [] ==> r.out == [Send(u, NoUserFound)])
            && (found != [] ==> r.out == [Send(u, SelectManager(Take(found, 5)))])
  {
    assert Str("manager") != Str("name") && Str("manager") != Str("phone") by {
      assert "manager"[0] != "name"[0] && "manager"[0] != "phone"[0];
    }
  }

  // ---------------------------------------------------------------- add_food

  /** A dish for the bot's own catalogue: name, ingredients, then how many people it serves. */
  function AddFood(w: World, u: UserId, st: Dict, raw: string, env: Env): (r: Res)
  {
    var t := Strip(raw);
    if !Truthy(Get(st, "add_food")) then Next(w)
    else if "data" !in st || "step" !in st then Raise(w, [])
    else
      var data := st["data"];
      var step := st["step"];
      if step == Str("name") then
        if !data.Obj? then Raise(w, [])
        else Done(SetState(w, u, map["add_food" := T, "step" := Str("ingredients"), "data" := Obj(data.fields["name" := Str(t)])]),
                  [Send(u, AskIngredients)])
      else if step == Str("ingredients") then
        if !data.Obj? then Raise(w, [])
        else Done(SetState(w, u, map["add_food" := T, "step" := Str("people"), "data" := Obj(data.fields["ingredients" := Str(t)])]),
                  [Send(u, AskPeople)])
      else if step == Str("people") then SaveCatalogueDish(w, u, data, t, env)
      else Next(w)
  }

  /**
   * The people step: a number int() accepts is stored with the dish under
   * the fresh id in the global foods, and the state is emptied.
   */
  function SaveCatalogueDish(w: World, u: UserId, data: Value, t: string, env: Env): (r: Res)
    ensures ParseIntLiteral(t).Some? && data.Obj? ==>
              && r == Done(r.w, [Send(u, FoodAddedToCatalogue)])
              && r.w == w.(states := r.w.states, catalogue := r.w.catalogue)
              && r.w.catalogue.Keys == w.catalogue.Keys + {env.freshId}
              && Get(r.w.catalogue[env.freshId], "people") == Int(ParseIntLiteral(t).value)
              && (forall k :: k != "people" ==> Get(r.w.catalogue[env.freshId], k) == Get(data.fields, k))
              && GetUserState(r.w.states, u) == map[]
  {
    match ParseIntLiteral(t)
    case None => Raise(w, [])
    case Some(n) =>
      if !data.Obj? then Raise(w, [])
      else
        var w1 := w.(catalogue := w.catalogue[env.freshId := data.fields["people" := Int(n)]]);
        Done(ClearState(w1, u), [Send(u, FoodAddedToCatalogue)])
  }

  /** A number of people int() rejects raises before anything is written. */
  lemma SaveCatalogueDishRaises(w: World, u: UserId, data: Value, t: string, env: Env)
    requires ParseIntLiteral(t).None?
    ensures SaveCatalogueDish(w, u, data, t, env) == Done(w, [Crash])
  {
  }

  /** The people step of the dish flow is SaveCatalogueDish of the stripped text. */
  lemma AddFoodPeopleStep(w: World, u: UserId, st: Dict, raw: string, env: Env)
    requires Truthy(Get(st, "add_food")) && "data" in st && Get(st, "step") == Str("people")
    ensures AddFood(w, u, st, raw, env) == SaveCatalogueDish(w, u, st["data"], Strip(raw), env)
  {
    assert Str("people") != Str("name") by { assert "people"[0] != "name"[0]; }
    assert Str("people") != Str("ingredients") by { assert "people"[0] != "ingredients"[0]; }
  }

  // ---------------------------------------------------------------- awaiting_food_price

  /** The price of a dish added to a restaurant's list, then the list's transaction. */
  function AwaitingFoodPrice(w: World, u: UserId, st: Dict, raw: string): (r: Res)
  {
    if !Truthy(Get(st, "awaiting_food_price")) then Next(w)
    else match ParseFloatLiteral(raw)
      case None => Done(w, [Send(u, InvalidPriceText)])
      case Some(p) =>
        if "rid" !in st || "food_data" !in st || !st["food_data"].Obj? then Raise(w, [])
        else
          var food := PricedFood(st["food_data"].fields, p);
          match PathKey(st["rid"])
          case None => Raise(w, [])
          case Some(rk) =>
            var current := Get(RecordOf(w.restaurants, rk), "foods");
            match AddFoodTxn(current, food)
            case Abort => Raise(w, [])
            case Commit(v) => CommitFood(w, u, rk, v, food)
  }

  /**
   * After a committed transaction: the restaurant's list is the committed
   * value, no other restaurant changes, the state is emptied, and the
   * reply, which reads the dish's name, raises when it has none.
   */
  function CommitFood(w: World, u: UserId, rk: string, v: Value, food: Dict): (r: Res)
    ensures r.Done? && (Crash in r.out <==> "name" !in food)
    ensures Get(RecordOf(r.w.restaurants, rk), "foods") == v
    ensures forall j :: j != rk ==> RecordOf(r.w.restaurants, j) == RecordOf(w.restaurants, j)
    ensures r.w == w.(states := r.w.states, restaurants := r.w.restaurants)
    ensures GetUserState(r.w.states, u) == map[]
  {
    var w1 := ClearState(w.(restaurants := WithChild(w.restaurants, rk, "foods", v)), u);
    if "name" !in food then Raise(w1, [])
    else Done(w1, [Send(u, FoodAddedToRest(food["name"]))])
  }

  /** A price float() rejects is asked for again and nothing is written. */
  lemma AwaitingFoodPriceRejects(w: World, u: UserId, st: Dict, raw: string)
    requires Truthy(Get(st, "awaiting_food_price")) && ParseFloatLiteral(raw).None?
    ensures AwaitingFoodPrice(w, u, st, raw) == Done(w, [Send(u, InvalidPriceText)])
  {
  }

  /** A price whose transaction aborts raises, and nothing is written. */
  lemma AwaitingFoodPriceAborts(w: World, u: UserId, st: Dict, raw: string, rk: string, p: real)
    requires Truthy(Get(st, "awaiting_food_price")) && ParseFloatLiteral(raw) == Some(p)
    requires "rid" in st && PathKey(st["rid"]) == Some(rk) && "food_data" in st && st["food_data"].Obj?
    requires AddFoodTxn(Get(RecordOf(w.restaurants, rk), "foods"), PricedFood(st["food_data"].fields, p)).Abort?
    ensures AwaitingFoodPrice(w, u, st, raw) == Done(w, [Crash])
  {
  }

  /** A price whose transaction commits goes on to CommitFood with the committed list. */
  lemma AwaitingFoodPriceAppends(w: World, u: UserId, st: Dict, raw: string, rk: string, p: real)
    requires Truthy(Get(st, "awaiting_food_price")) && ParseFloatLiteral(raw) == Some(p)
    requires "rid" in st && PathKey(st["rid"]) == Some(rk) && "food_data" in st && st["food_data"].Obj?
    requires AddFoodTxn(Get(RecordOf(w.restaurants, rk), "foods"), PricedFood(st["food_data"].fields, p)).Commit?
    ensures var food := PricedFood(st["food_data"].fields, p);
            var txn := AddFoodTxn(Get(RecordOf(w.restaurants, rk), "foods"), food);
            AwaitingFoodPrice(w, u, st, raw) == CommitFood(w, u, rk, txn.value, food)
  {
  }

  // ---------------------------------------------------------------- awaiting_schedule

  /** "ASAP" or "now", in any case. */
  predicate MeansNow(t: string)
  {
    Lower(t) == "asap" || Lower(t) == "now"
  }

  /** When the order is to be delivered: now, or the parsed time; None when it does not parse. */
  function RunAt(t: string, env: Env): (r: Option<Instant>)
    ensures MeansNow(t) ==> r == Some(env.now)
    ensures !MeansNow(t) ==> r == env.parseTime(t)
  {
    if MeansNow(t) then Some(env.now) else env.parseTime(t)
  }

  /** The stored order: the pending order with its id, time, status and creation stamp. */
  function PlacedOrder(pending: Dict, orderId: string, runAt: Instant, env: Env): (o: Dict)
    ensures Get(o, "order_id") == Str(orderId)
    ensures Get(o, "status") == Str("scheduled")
    ensures Get(o, "scheduled_for") == Str(env.iso(runAt))
    ensures Get(o, "created_at") == ServerTimestamp
    ensures forall k :: k !in {"order_id", "scheduled_for", "status", "created_at"} ==> Get(o, k) == Get(pending, k)
  {
    pending["order_id" := Str(orderId)]["scheduled_for" := Str(env.iso(runAt))]
           ["status" := Str("scheduled")]["created_at" := ServerTimestamp]
  }

  /** The restaurant's aggregates after an order: its id on the list and the counter raised. */
  function RecordOrder(rs: map<string, Dict>, rk: string, orderId: string): (r: map<string, Dict>)
    ensures forall j :: j != rk ==> RecordOf(r, j) == RecordOf(rs, j)
  {
    var orders := Get(RecordOf(rs, rk), "orders");
    var rs1 := WithChild(rs, rk, "orders", Aggregates.Outcome(orders, AddOrderTxn(orders, orderId)));
    var count := Get(RecordOf(rs1, rk), "orders_count");
    WithChild(rs1, rk, "orders_count", Aggregates.Outcome(count, IncrementTxn(count, 1)))
  }

  /** The order is placed: stored, counted at its restaurant, and its notification scheduled. */
  function AwaitingSchedule(w: World, u: UserId, st: Dict, raw: string, env: Env): (r: Res)
  {
    var t := Strip(raw);
    if !(Truthy(Get(st, "awaiting_schedule")) && Truthy(Get(st, "pending_order"))) then Next(w)
    else match RunAt(t, env)
      case None => Done(w, [Send(u, InvalidTime)])
      case Some(runAt) =>
        var pending := st["pending_order"];
        if !pending.Obj? then Raise(w, [])
        else
          var oid := env.freshId;
          var order := PlacedOrder(pending.fields, oid, runAt, env);
          var w1 := w.(orders := w.orders[oid := order]);
          if "restaurant_id" !in order then Raise(w1, [])
          else match PathKey(order["restaurant_id"])
            case None => Raise(w1, [])
            case Some(rk) =>
              var w2 := w1.(restaurants := RecordOrder(w1.restaurants, rk, oid));
              var chat := RestaurantChat(w2.restaurants, rk);
              var w3 := w2.(jobs := Schedule(w2.jobs, oid, runAt, chat));
              Done(SetState(w3, u, map[]), [Send(u, OrderPlaced(oid, runAt))])
  }

  // ---------------------------------------------------------------- the chain

  /** The number of state guards before the menu texts. */
  const GuardCount: nat := 12

  /** The i-th guard of the chain; the handler tries them by increasing i. */
  function Guard(i: nat, w: World, u: UserId, st: Dict, raw: string, env: Env): Res
    requires i < GuardCount
  {
    if i == 11 then AwaitingSchedule(w, u, st, raw, env)
    else if i == 0 then AddFoodMode(w, u, st, raw, env)
    else if i == 1 then AwaitingSearch(w, u, st, raw)
    else if i == 2 then EditingRest(w, u, st, raw)
    else if i == 3 then EditName(w, u, st, raw)
    else if i == 4 then AwaitingEditSearch(w, u, st, raw)
    else if i == 5 then AwaitingFoodData(w, u, st, raw, env)
    else if i == 6 then RegRestStep(w, u, st, raw, env)
    else if i == 7 then AddFlow(w, u, st, raw)
    else if i == 8 then AddRest(w, u, st, raw)
    else if i == 9 then AddFood(w, u, st, raw, env)
    else AwaitingFoodPrice(w, u, st, raw)
  }

  /** The order was placed by u: its user_id is str(u). */
  predicate PlacedBy(o: Dict, u: UserId)
  {
    Get(o, "user_id") == Str(UserKey(u))
  }

  /**
   * The user's orders and their statuses, in the order of keys: every order
   * of the user is listed with its status, and no other. None (o['status']
   * raises) exactly when one of the user's orders has no status.
   */
  function OrdersOf(keys: seq<string>, orders: map<string, Dict>, u: UserId): (r: Option<seq<(string, Value)>>)
    requires forall k :: k in keys ==> k in orders
    ensures r.Some? ==> forall p :: p in r.value ==> p.0 in keys && PlacedBy(orders[p.0], u)
    ensures r.Some? ==> forall p :: p in r.value ==> "status" in orders[p.0] && p.1 == orders[p.0]["status"]
    ensures r.Some? ==> forall k :: k in keys && PlacedBy(orders[k], u) ==> exists p :: p in r.value && p.0 == k
    ensures r.None? <==> exists k :: k in keys && PlacedBy(orders[k], u) && "status" !in orders[k]
    decreases |keys|
  {
    if keys == [] then Some([])
    else
      var o := orders[keys[0]];
      if PlacedBy(o, u) then
        if "status" !in o then None
        else match OrdersOf(keys[1..], orders, u)
          case None => None
          case Some(rest) => Some([(keys[0], o["status"])] + rest)
      else OrdersOf(keys[1..], orders, u)
  }

  /** The menu texts, after every guard passed the message on. */
  function MenuText(w: World, u: UserId, raw: string): (r: Res)
    ensures r.Done?
  {
    var t := Strip(raw);
    if t == "Search by restaurant" then
      Done(SetState(w, u, map["awaiting_search" := T, "awaiting_search_type" := Str("restaurant")]), [Send(u, AskSearchRestaurant)])
    else if t == "Search by food" then
      Done(SetState(w, u, map["awaiting_search" := T, "awaiting_search_type" := Str("food")]), [Send(u, AskSearchFood)])
    else if t == "Search by location" then
      Done(SetState(w, u, map["awaiting_search_by_location" := T]), [Send(u, AskLocationShare)])
    else if t == "Top-rated" then Done(w, [Send(u, Rankings(TopRated))])
    else if t == "Least-ordered (fastest)" then Done(w, [Send(u, Rankings(Fastest))])
    else if t == "Closest restaurants" then
      if !Truthy(Get(RecordOf(w.users, UserKey(u)), "last_location")) then Done(w, [Send(u, ShareLocationFirst)])
      else Done(w, [Send(u, Rankings(Closest))])
    else if t == "My orders" then
      match OrdersOf(SortedKeys(w.orders), w.orders, u)
      case None => Raise(w, [])
      case Some(mine) => if mine == [] then Done(w, [Send(u, NoOrders)]) else Done(w, [Send(u, YourOrders(mine))])
    else Done(w, [Send(u, UnknownCommand)])
  }

  /** The guards from the i-th on, then the menu texts. */
  function Chain(i: nat, w: World, u: UserId, st: Dict, raw: string, env: Env): (r: Res)
    requires i <= GuardCount
    ensures r.Done?
    decreases GuardCount - i
  {
    if i == GuardCount then MenuText(w, u, raw)
    else match Guard(i, w, u, st, raw, env)
      case Done(w1, out) => Done(w1, out)
      case Next(w1) => Chain(i + 1, w1, u, st, raw, env)
  }

  /** general_text_handler: the world after one text message, and what was sent. */
  function HandleText(w: World, u: UserId, raw: string, env: Env): (r: Res)
    ensures r.Done?
  {
    Chain(0, w, u, GetUserState(w.states, u), raw, env)
  }
}
