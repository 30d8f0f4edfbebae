/**
 * The deferred notifications: the job table the scheduler keeps
 * (bot.py, schedule_order_notification), what a job does when it fires
 * (send_restaurant_notification), and the re-registration of scheduled
 * orders at start-up (restore_scheduled_orders).
 */
module Jobs {
  import opened Wrappers
  import opened Json

  /** A point in time, in seconds since the epoch, UTC. */
  type Instant = int

  /** A one-shot job: at runAt, notify target about orderId. */
  datatype Job = Job(runAt: Instant, target: Value, orderId: string)

  type JobTable = map<string, Job>

  /** The id a notification job is registered under. */
  function JobId(orderId: string): (id: string)
    ensures |id| == |orderId| + 6 && id[..6] == "order_" && id[6..] == orderId
  {
    "order_" + orderId
  }

  lemma JobIdInjective(a: string, b: string)
    requires JobId(a) == JobId(b)
    ensures a == b
  {
    assert a == JobId(a)[6..];
  }

  /** add_job(..., id="order_<id>", replace_existing=True) */
  function Schedule(jobs: JobTable, orderId: string, runAt: Instant, target: Value): (r: JobTable)
    ensures r.Keys == jobs.Keys + {JobId(orderId)}
    ensures r[JobId(orderId)] == Job(runAt, target, orderId)
    ensures forall k :: k in jobs && k != JobId(orderId) ==> r[k] == jobs[k]
  {
    jobs[JobId(orderId) := Job(runAt, target, orderId)]
  }

  /** Every job sits under the id its order gives it. */
  predicate WellKeyed(jobs: JobTable)
  {
    forall k :: k in jobs ==> k == JobId(jobs[k].orderId)
  }

  /**
   * Scheduling an order that already has a job replaces it: one job per
   * order, carrying the latest instant and target, and no other job changes.
   */
  lemma ScheduleReplaces(jobs: JobTable, orderId: string, runAt: Instant, target: Value)
    requires WellKeyed(jobs)
    ensures WellKeyed(Schedule(jobs, orderId, runAt, target))
    ensures JobId(orderId) in Schedule(jobs, orderId, runAt, target)
    ensures Schedule(jobs, orderId, runAt, target)[JobId(orderId)] == Job(runAt, target, orderId)
    ensures forall k :: (k in Schedule(jobs, orderId, runAt, target) &&
                         Schedule(jobs, orderId, runAt, target)[k].orderId == orderId) ==> k == JobId(orderId)
    ensures forall k :: k != JobId(orderId) ==>
              (k in Schedule(jobs, orderId, runAt, target) <==> k in jobs)
    ensures forall k :: k != JobId(orderId) && k in jobs ==> Schedule(jobs, orderId, runAt, target)[k] == jobs[k]
    ensures |Schedule(jobs, orderId, runAt, target)| == |jobs| + (if JobId(orderId) in jobs then 0 else 1)
  {
  }

  /** Scheduling the same order twice is scheduling it once, with the later arguments. */
  lemma ScheduleTwice(jobs: JobTable, orderId: string, t1: Instant, x1: Value, t2: Instant, x2: Value)
    ensures Schedule(Schedule(jobs, orderId, t1, x1), orderId, t2, x2) == Schedule(jobs, orderId, t2, x2)
  {
  }

  /** One line of the notification: an item's name, quantity and price. */
  datatype ItemLine = ItemLine(name: Value, qty: Value, price: Value)

  /** The message sent to the restaurant about one order. */
  datatype Notification =
    Notification(to: Value, orderId: string, items: seq<ItemLine>, total: Value, userName: Value, phone: Value)

  /** The item lines, or None when an item is not a record or lacks a field. */
  function ItemLines(items: seq<Value>): (r: Option<seq<ItemLine>>)
    ensures r.Some? ==> |r.value| == |items|
    ensures r.Some? <==> forall i :: 0 <= i < |items| ==> RenderableItem(items[i])
    decreases |items|
  {
    if items == [] then Some([])
    else if !RenderableItem(items[0]) then None
    else match ItemLines(items[1..])
      case None => None
      case Some(rest) =>
        var f := items[0].fields;
        Some([ItemLine(f["name"], f["qty"], f["price"])] + rest)
  }

  predicate RenderableItem(item: Value)
  {
    item.Obj? && "name" in item.fields && "qty" in item.fields && "price" in item.fields
  }

  /**
   * Iterating order.get("items", []): a list is rendered item by item; an
   * absent, empty string or empty record has no items; iterating any other
   * record or string yields keys or characters, and indexing those raises,
   * as does iterating a number.
   */
  function OrderItems(order: Dict): Option<seq<ItemLine>>
  {
    match Get(order, "items")
    case Null => Some([])
    case Arr(xs) => ItemLines(xs)
    case Obj(m) => if m == map[] then Some([]) else None
    case Str(s) => if s == "" then Some([]) else None
    case _ => None
  }

  /** The notification renders when the items render and the order names its total and customer. */
  predicate Renderable(order: Dict)
  {
    OrderItems(order).Some? && "total_price" in order && "user_name" in order && "phone" in order
  }

  /** The order is one to notify about: present, non-empty and not yet served. */
  predicate Live(orders: map<string, Dict>, orderId: string)
  {
    orderId in orders && orders[orderId] != map[] && Get(orders[orderId], "status") != Str("served")
  }

  /**
   * send_restaurant_notification's decision: nothing for a missing or
   * served order or one whose message cannot be rendered (the exception is
   * swallowed); otherwise the notification for that order.
   */
  function Dispatch(orders: map<string, Dict>, target: Value, orderId: string): (r: Option<Notification>)
    ensures r.Some? <==> Live(orders, orderId) && Renderable(orders[orderId])
    ensures r.Some? ==> r.value.orderId == orderId && r.value.to == target
    ensures r.Some? ==> r.value.total == orders[orderId]["total_price"]
    ensures r.Some? && Get(orders[orderId], "items").Arr? ==>
              |r.value.items| == |Get(orders[orderId], "items").items|
  {
    if !Live(orders, orderId) then None
    else
      var o := orders[orderId];
      match OrderItems(o)
      case None => None
      case Some(lines) =>
        if "total_price" in o && "user_name" in o && "phone" in o then
          Some(Notification(target, orderId, lines, o["total_price"], o["user_name"], o["phone"]))
        else None
  }

  /** A missing or served order is never notified about. */
  lemma DispatchSkipsDeadOrders(orders: map<string, Dict>, target: Value, orderId: string)
    requires orderId !in orders || Get(orders[orderId], "status") == Str("served")
    ensures Dispatch(orders, target, orderId) == None
  {
  }

  /** The chat the restaurant's notifications go to: `chat_id or manager_chat_id`. */
  function RestaurantChat(restaurants: map<string, Dict>, rid: string): (v: Value)
    ensures rid !in restaurants ==> v == Null
    ensures rid in restaurants && Truthy(Get(restaurants[rid], "chat_id")) ==> v == restaurants[rid]["chat_id"]
    ensures rid in restaurants && !Truthy(Get(restaurants[rid], "chat_id")) ==> v == Get(restaurants[rid], "manager_chat_id")
  {
    var rest := if rid in restaurants then restaurants[rid] else map[];
    Or(Get(rest, "chat_id"), Get(rest, "manager_chat_id"))
  }

  /**
   * An order restore_scheduled_orders re-registers: status "scheduled", a
   * scheduled_for string the date parser reads, and a usable restaurant id.
   * Any failure along the way is caught and the order skipped.
   */
  predicate Restorable(o: Dict, parse: string -> Option<Instant>)
  {
    Get(o, "status") == Str("scheduled") &&
    Get(o, "scheduled_for").Str? && parse(Get(o, "scheduled_for").s).Some? &&
    PathKey(Get(o, "restaurant_id")).Some?
  }

  function RestoredJob(orderId: string, o: Dict, restaurants: map<string, Dict>,
                       parse: string -> Option<Instant>): Job
    requires Restorable(o, parse)
  {
    Job(parse(o["scheduled_for"].s).value,
        RestaurantChat(restaurants, PathKey(o["restaurant_id"]).value),
        orderId)
  }

  /** The job restoring registers for a stored order, if any. */
  function RestoreCandidates(orders: map<string, Dict>, restaurants: map<string, Dict>,
                             parse: string -> Option<Instant>): (job: string -> Option<Job>)
    ensures forall oid :: oid in orders && Restorable(orders[oid], parse) ==>
              job(oid) == Some(RestoredJob(oid, orders[oid], restaurants, parse))
    ensures forall oid :: !(oid in orders && Restorable(orders[oid], parse)) ==> job(oid) == None
  {
    oid => if oid in orders && Restorable(orders[oid], parse) then Some(RestoredJob(oid, orders[oid], restaurants, parse)) else None
  }

  /** One job per order id in ids that job gives one for, each under that id. */
  function JobsOver(ids: set<string>, job: string -> Option<Job>): JobTable
  {
    map oid | oid in ids && job(oid).Some? :: JobId(oid) := job(oid).value
  }

  /** The jobs restoring the orders with ids in ids registers. */
  function RestoredOver(ids: set<string>, orders: map<string, Dict>, restaurants: map<string, Dict>,
                        parse: string -> Option<Instant>): JobTable
  {
    JobsOver(ids, RestoreCandidates(orders, restaurants, parse))
  }

  /** The jobs restore_scheduled_orders registers. */
  function RestoredJobs(orders: map<string, Dict>, restaurants: map<string, Dict>,
                        parse: string -> Option<Instant>): JobTable
  {
    RestoredOver(orders.Keys, orders, restaurants, parse)
  }

  /** JobsOver holds exactly the jobs job gives for ids, each under its own order's id. */
  lemma JobsOverKeys(ids: set<string>, job: string -> Option<Job>)
    ensures forall o :: o in ids && job(o).Some? ==> JobId(o) in JobsOver(ids, job) && JobsOver(ids, job)[JobId(o)] == job(o).value
    ensures forall k :: k in JobsOver(ids, job) ==> exists o :: o in ids && job(o).Some? && k == JobId(o)
  {
    var m := JobsOver(ids, job);
    forall o | o in ids && job(o).Some?
      ensures JobId(o) in m && m[JobId(o)] == job(o).value
    {
      var o' :| o' in ids && job(o').Some? && JobId(o') == JobId(o) && m[JobId(o)] == job(o').value;
      JobIdInjective(o', o);
    }
  }

  /** Adding an id job gives a job for adds exactly that job. */
  lemma JobsOverAdds(ids: set<string>, oid: string, job: string -> Option<Job>)
    requires oid !in ids && job(oid).Some?
    ensures JobsOver(ids + {oid}, job) == JobsOver(ids, job)[JobId(oid) := job(oid).value]
  {
    var before := JobsOver(ids, job);
    var after := JobsOver(ids + {oid}, job);
    var expected := before[JobId(oid) := job(oid).value];
    JobsOverKeys(ids, job);
    JobsOverKeys(ids + {oid}, job);
    forall k | k in after
      ensures k in expected && after[k] == expected[k]
    {
      var o :| o in ids + {oid} && job(o).Some? && k == JobId(o);
      if o != oid && k == JobId(oid) {
        JobIdInjective(o, oid);
      }
    }
    assert after.Keys == expected.Keys;
  }

  /** Adding an id job gives no job for changes nothing. */
  lemma JobsOverSkips(ids: set<string>, oid: string, job: string -> Option<Job>)
    requires job(oid).None?
    ensures JobsOver(ids + {oid}, job) == JobsOver(ids, job)
  {
    var before := JobsOver(ids, job);
    var after := JobsOver(ids + {oid}, job);
    JobsOverKeys(ids, job);
    JobsOverKeys(ids + {oid}, job);
    forall k | k in after
      ensures k in before
    {
      var o :| o in ids + {oid} && job(o).Some? && k == JobId(o);
    }
    assert after.Keys == before.Keys;
  }

  /**
   * Restoring registers a job for exactly the restorable orders, each under
   * its own id with the parsed instant and the restaurant's chat.
   */
  lemma RestoreExactly(orders: map<string, Dict>, restaurants: map<string, Dict>,
                       parse: string -> Option<Instant>)
    ensures forall oid :: JobId(oid) in RestoredJobs(orders, restaurants, parse) <==>
              oid in orders && Restorable(orders[oid], parse)
    ensures forall oid :: oid in orders && Restorable(orders[oid], parse) ==>
              RestoredJobs(orders, restaurants, parse)[JobId(oid)] ==
              Job(parse(orders[oid]["scheduled_for"].s).value,
                  RestaurantChat(restaurants, PathKey(orders[oid]["restaurant_id"]).value), oid)
    ensures WellKeyed(RestoredJobs(orders, restaurants, parse))
  {
    var job := RestoreCandidates(orders, restaurants, parse);
    var r := RestoredJobs(orders, restaurants, parse);
    JobsOverKeys(orders.Keys, job);
    forall oid | JobId(oid) in r
      ensures oid in orders && Restorable(orders[oid], parse)
    {
      var o' :| o' in orders.Keys && job(o').Some? && JobId(oid) == JobId(o');
      JobIdInjective(o', oid);
    }
    forall k | k in r
      ensures k == JobId(r[k].orderId)
    {
      var o' :| o' in orders.Keys && job(o').Some? && k == JobId(o');
    }
  }

  /** Adding one order to the visited ids adds at most its job. */
  lemma RestoredOverStep(ids: set<string>, oid: string, orders: map<string, Dict>,
                         restaurants: map<string, Dict>, parse: string -> Option<Instant>)
    requires oid in orders && oid !in ids
    ensures RestoredOver(ids + {oid}, orders, restaurants, parse) ==
            if Restorable(orders[oid], parse)
            then RestoredOver(ids, orders, restaurants, parse)[JobId(oid) := RestoredJob(oid, orders[oid], restaurants, parse)]
            else RestoredOver(ids, orders, restaurants, parse)
  {
    var job := RestoreCandidates(orders, restaurants, parse);
    if Restorable(orders[oid], parse) {
      JobsOverAdds(ids, oid, job);
    } else {
      JobsOverSkips(ids, oid, job);
    }
  }

  lemma UnionUpdate(a: JobTable, b: JobTable, k: string, v: Job)
    ensures (a + b)[k := v] == a + b[k := v]
  {
  }

  /** Visiting a restorable order schedules its job on top of what was there. */
  lemma RestoreVisitAdds(prior: JobTable, visited: set<string>, oid: string, orders: map<string, Dict>,
                         restaurants: map<string, Dict>, parse: string -> Option<Instant>)
    requires oid in orders && oid !in visited && Restorable(orders[oid], parse)
    ensures prior + RestoredOver(visited + {oid}, orders, restaurants, parse) ==
            Schedule(prior + RestoredOver(visited, orders, restaurants, parse), oid,
                     parse(orders[oid]["scheduled_for"].s).value,
                     RestaurantChat(restaurants, PathKey(orders[oid]["restaurant_id"]).value))
  {
    RestoredOverStep(visited, oid, orders, restaurants, parse);
    UnionUpdate(prior, RestoredOver(visited, orders, restaurants, parse), JobId(oid),
                RestoredJob(oid, orders[oid], restaurants, parse));
  }

  /** Visiting any other order leaves the table as it was. */
  lemma RestoreVisitSkips(prior: JobTable, visited: set<string>, oid: string, orders: map<string, Dict>,
                          restaurants: map<string, Dict>, parse: string -> Option<Instant>)
    requires oid in orders && oid !in visited && !Restorable(orders[oid], parse)
    ensures prior + RestoredOver(visited + {oid}, orders, restaurants, parse) ==
            prior + RestoredOver(visited, orders, restaurants, parse)
  {
    RestoredOverStep(visited, oid, orders, restaurants, parse);
  }

  /** The scheduler's job table, updated in place. */
  class Scheduler {
    var jobs: JobTable

    constructor ()
      ensures jobs == map[]
    {
      jobs := map[];
    }

    /** schedule_order_notification */
    method ScheduleOrderNotification(orderId: string, runAt: Instant, target: Value)
      modifies this
      ensures jobs == Schedule(old(jobs), orderId, runAt, target)
    {
      jobs := jobs[JobId(orderId) := Job(runAt, target, orderId)];
    }

    /** One order's turn in restore_scheduled_orders: re-registered when it is restorable. */
    method RestoreOne(oid: string, orders: map<string, Dict>, restaurants: map<string, Dict>,
                      parse: string -> Option<Instant>, ghost prior: JobTable, ghost visited: set<string>)
      requires oid in orders && oid !in visited
      requires jobs == prior + RestoredOver(visited, orders, restaurants, parse)
      modifies this
      ensures jobs == prior + RestoredOver(visited + {oid}, orders, restaurants, parse)
    {
      var o := orders[oid];
      var runAt := if Get(o, "status") == Str("scheduled") && Get(o, "scheduled_for").Str?
                   then parse(o["scheduled_for"].s) else None;
      var rid := PathKey(Get(o, "restaurant_id"));
      if runAt.Some? && rid.Some? {
        RestoreVisitAdds(prior, visited, oid, orders, restaurants, parse);
        ScheduleOrderNotification(oid, runAt.value, RestaurantChat(restaurants, rid.value));
      } else {
        RestoreVisitSkips(prior, visited, oid, orders, restaurants, parse);
      }
    }

    /** restore_scheduled_orders: one pass over the stored orders. */
    method Restore(orders: map<string, Dict>, restaurants: map<string, Dict>, parse: string -> Option<Instant>)
      modifies this
      ensures jobs == old(jobs) + RestoredJobs(orders, restaurants, parse)
    {
      var pending := orders.Keys;
      ghost var visited: set<string> := {};
      while pending != {}
        invariant pending + visited == orders.Keys && pending !! visited
        invariant jobs == old(jobs) + RestoredOver(visited, orders, restaurants, parse)
        decreases pending
      {
        var oid :| oid in pending;
        RestoreOne(oid, orders, restaurants, parse, old(jobs), visited);
        pending := pending - {oid};
        visited := visited + {oid};
      }
      assert visited == orders.Keys;
    }

    /**
     * A date-triggered job runs once and leaves the table; it returns the
     * notification it sends, if any.
     */
    method Fire(jobId: string, orders: map<string, Dict>) returns (sent: Option<Notification>)
      modifies this
      ensures jobs == old(jobs) - {jobId}
      ensures jobId in old(jobs) ==> sent == Dispatch(orders, old(jobs)[jobId].target, old(jobs)[jobId].orderId)
      ensures jobId !in old(jobs) ==> sent == None
    {
      if jobId in jobs {
        var job := jobs[jobId];
        jobs := jobs - {jobId};
        sent := Dispatch(orders, job.target, job.orderId);
      } else {
        sent := None;
      }
    }
  }
}
