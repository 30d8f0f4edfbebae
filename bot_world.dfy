/**
 * The part of the store the conversation handlers read and write, what they
 * send, and the outside inputs (clock, id generator, date parser) they take.
 */
module BotWorld {
  import opened Wrappers
  import opened Numerals
  import opened Json
  import opened StateStore
  import opened Jobs
  import opened Listing

  /**
   * The store as the handlers see it. Every collection is keyed by child
   * name. A user's `state` child is kept apart, in `states`.
   */
  datatype World = World(
    states: States,                  // foodbot/users/<id>/state
    users: map<string, Dict>,        // foodbot/users/<id>, without the state child
    restaurants: map<string, Dict>,  // foodbot/restaurants
    orders: map<string, Dict>,       // foodbot/orders
    catalogue: map<string, Dict>,    // foodbot/foods, written by the add_food flow
    sharedFoods: map<string, Dict>,  // foods at the database root, written by awaiting_food_data
    jobs: JobTable)                  // the scheduler's pending jobs

  /**
   * The inputs a handler takes from outside: the current instant, the one
   * fresh identifier it may need, the date parser and the formatter of
   * instants, and the configured administrators.
   */
  datatype Env = Env(
    now: Instant,
    freshId: string,
    parseTime: string -> Option<Instant>,
    iso: Instant -> string,
    admins: seq<UserId>)

  /** The three rankings whose contents the model does not compute. */
  datatype Ranking = TopRated | Fastest | Closest

  /** What a message says, without its wording or keyboard. */
  datatype Msg =
    | Ack
    | AskFoodPrice
    | InvalidPrice
    | FoodAddedToRestaurant(foodName: Value)
    | NoRestaurantsFound
    | RestaurantResults(restaurantHits: seq<RestaurantHit>)
    | NoFoodMatches
    | FoodResults(foodHits: seq<FoodHit>)
    | AskNewName
    | AskNewLocation
    | AskNewPhoto
    | HowToAddFood(rid: Value)
    | EditCancelled
    | NameUpdated
    | EditSearchResults(query: string, page: Page)
    | InvalidFoodFormat
    | FoodSaved(dishName: string)
    | NameExists
    | ChooseFoods
    | InvalidCustomFood
    | CustomFoodAdded(dishName: string)
    | ApprovalRequest(request: Dict)
    | SentForApproval
    | AskRestaurantName
    | AskFoodName
    | AskPhone
    | AskLocation
    | NoUserFound
    | SelectManager(candidates: seq<string>)
    | AskIngredients
    | AskPeople
    | FoodAddedToCatalogue
    | InvalidPriceText
    | FoodAddedToRest(foodName: Value)
    | InvalidTime
    | OrderPlaced(orderId: string, runAt: Instant)
    | AskSearchRestaurant
    | AskSearchFood
    | AskLocationShare
    | Rankings(ranking: Ranking)
    | ShareLocationFirst
    | NoOrders
    | YourOrders(orderStatus: seq<(string, Value)>)
    | UnknownCommand
    | AskPhoto
    | RestaurantAdded(name: Value)
    | InvalidCallback
    | RestaurantNotFound
    | EditingRestaurant(name: Value)
    | AskNewFoodName
    | AskEditSearch
    | ManagerSelected
    | ManagerAssigned(uid: Value)
    | ChooseQuantity(choices: seq<Value>)
    | FoodNotFound
    | AskSchedule
    | RestaurantRegistered(name: Value, restId: string)
    | SaveError(info: string)
    | UnknownAction
    | Unmodelled(action: Value)

  /** A message to a chat, an answer to the pressed button, or an exception that escapes. */
  datatype Effect = Send(to: UserId, msg: Msg) | Answer(msg: Msg) | Crash

  /**
   * One guard of a handler's first-match chain: it handled the event
   * (with the world it leaves and what it sent), or passed it on.
   */
  datatype Res = Done(w: World, out: seq<Effect>) | Next(w: World)

  /** The flags the handlers store. */
  const T: Value := Bool(true)
  const F: Value := Bool(false)

  /** The handler stops on an uncaught exception; what it wrote before stays. */
  function Raise(w: World, out: seq<Effect>): (r: Res)
    ensures r.Done? && r.w == w && r.out == out + [Crash]
  {
    Done(w, out + [Crash])
  }

  /** The path segment of a Telegram user id, str(user_id). */
  function UserKey(u: UserId): string
  {
    IntToString(u)
  }

  /** A stored record, or {} when the node is absent. */
  function RecordOf(m: map<string, Dict>, k: string): (d: Dict)
    ensures k in m ==> d == m[k]
    ensures k !in m ==> d == map[]
  {
    if k in m then m[k] else map[]
  }

  /** Writing v at <k>/<child>: the record at k is created when absent. */
  function WithChild(m: map<string, Dict>, k: string, child: string, v: Value): (r: map<string, Dict>)
    ensures k in r && Get(r[k], child) == v
    ensures forall c :: c != child ==> Get(r[k], c) == Get(RecordOf(m, k), c)
    ensures forall j :: j != k ==> RecordOf(r, j) == RecordOf(m, j)
  {
    m[k := SetChild(RecordOf(m, k), child, v)]
  }

  /** Writing v at <k>/<child>/<leaf>; a list at <k>/<child> is keyed by index. */
  function WithGrandchild(m: map<string, Dict>, k: string, child: string, leaf: string, v: Value): (r: map<string, Dict>)
    requires v != Null
    ensures k in r && Get(r[k], child).Obj? && Get(Get(r[k], child).fields, leaf) == v
    ensures forall x :: x != leaf ==> Get(Get(r[k], child).fields, x) == Get(Children(Get(RecordOf(m, k), child)), x)
    ensures forall j :: j != k ==> RecordOf(r, j) == RecordOf(m, j)
  {
    var rec := RecordOf(m, k);
    WithChild(m, k, child, Obj(SetChild(Children(Get(rec, child)), leaf, v)))
  }

  /** set_user_state on the world. */
  function SetState(w: World, u: UserId, partial: Dict): (r: World)
    ensures r == w.(states := SetUserState(w.states, u, partial))
  {
    w.(states := SetUserState(w.states, u, partial))
  }

  /** w' differs from w at most in the users' conversation states. */
  predicate StatesOnly(w: World, w': World)
  {
    w'.users == w.users && w'.restaurants == w.restaurants && w'.orders == w.orders &&
    w'.catalogue == w.catalogue && w'.sharedFoods == w.sharedFoods && w'.jobs == w.jobs
  }

  /** clear_user_state on the world. */
  function ClearState(w: World, u: UserId): (r: World)
    ensures r == w.(states := ClearUserState(w.states, u))
    ensures GetUserState(r.states, u) == map[]
  {
    w.(states := ClearUserState(w.states, u))
  }

  /** Python's float(v): None when it raises. */
  function PyFloat(v: Value): (r: Option<real>)
    ensures v.Num? ==> r == Some(v.r)
    ensures v.Int? ==> r == Some(v.i as real)
    ensures v.Str? ==> r == ParseFloatLiteral(v.s)
    ensures v.Null? || v.Arr? || v.Obj? ==> r.None?
  {
    match v
    case Int(i) => Some(i as real)
    case Num(x) => Some(x)
    case Bool(b) => Some(if b then 1.0 else 0.0)
    case Str(s) => ParseFloatLiteral(s)
    case _ => None
  }

  /** d.get(k, default) */
  function GetOr(d: Dict, k: string, default: Value): (v: Value)
    ensures k in d ==> v == d[k]
    ensures k !in d ==> v == default
  {
    if k in d then d[k] else default
  }
}
