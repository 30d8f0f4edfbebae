# Food-ordering bot: a Dafny model of its core

`bot.py` is a Telegram bot for ordering food. Restaurants, users, orders and
each user's conversation state are kept in a Firebase realtime database. An
APScheduler job sends each order to the restaurant's chat at the time the
customer chose. This project models the sequential core under the Telegram
and Firebase calls:

- **Transactions** (`aggregates.dfy`). These are the functions handed to
  `ref.transaction`: appending an order id to a restaurant's `orders` list,
  removing one, adding to `orders_count`, and appending a dish to a
  restaurant's `foods` unless one with the same name is already there. Each
  maps the current value, or its absence, to the value committed.
- **The per-user state store** (`state_store.dfy`). `set_user_state` merges
  shallowly, `get_user_state` reads `{}` for a missing record, and
  `clear_user_state` writes `{}`. There is a function model and a `Store`
  class whose methods update a `map` field.
- **The text conversation** (`text_handler.dfy`). `general_text_handler` is a
  first-match chain of twelve state guards, then the menu texts, then
  "Unknown command". It is modelled as a function from the world, the user,
  the text and the outside inputs to the new world and the messages sent.
  `parse_price` is in `numerals.dfy`.
- **Button presses** (`callbacks.dfy`). `callback_handler` handles the two
  plain-string payloads and the JSON actions `add_food_new`, `edit_search`,
  `edit_rest`, `add_rest_select_manager`, `choose_food` and `pick_qty`. It
  includes `try_finalize_pending_rest` and
  `attempt_finish_after_state_change`.
- **The job table** (`jobs.dfy`). `schedule_order_notification` registers or
  replaces the job `order_<id>`. The decision part of
  `send_restaurant_notification` is modelled. `restore_scheduled_orders` is
  a loop over the stored orders. The `Scheduler` class holds the job table.
- **Listings** (`listing.dfy`). This covers the filter, sort and page
  arithmetic of `build_restaurant_page`, and the two search helpers.

Stored values are JSON-like (`Json.Value`). A Python `None`, or an absent
child, is `Null`. The model takes a node's children, and every loop over a
dictionary in the source, in one fixed order: ascending code-point order of
the keys (`KeyOrder.SortedKeys`). This is an assumption of the model (see
"## Left out"). Outside inputs are passed to the handlers in `BotWorld.Env`:

- the clock (`now`);
- the one fresh identifier a handler may mint (`freshId`, standing for
  `uuid4().hex[:8]`, `generate_id()`, `make_order_id()` and
  `make_rest_id()`);
- `dateutil`'s parser (`parseTime`);
- `isoformat` (`iso`);
- the configured administrators.

A Python exception that escapes a handler is the effect `Crash`. Whatever
the handler wrote before the exception stays written. Number parsing
(`int()`, `float()`, `str.isdigit`) is modelled by literal parsers in
`numerals.dfy`.

The code differs from what its authors evidently intended in three places,
and the handlers of this model follow the intended reading (see "## Findings"
and "## Left out"):

- `parse_price` lets "²" through its `isdigit()` guard and then `float()`
  raises. `TextHandler.AddFoodMode` calls the corrected `Numerals.ParsePrice`,
  which answers None there; `Numerals.ParsePriceAsWritten` is the code as
  written.
- The dish-adding flow (`add_food_mode`) writes the priced dish as a keyed
  child `foods/<id>`. The food search and `pick_qty` iterate `foods` as a
  list, so on such a restaurant they iterate key strings and raise. The
  handlers read the dishes with `Listing.Dishes`, child by child;
  `Listing.SearchFoodsAsWritten` and `Callbacks.PickLookupAsWritten` are the
  code as written.
- `set_user_state(u, {})` is meant to empty the state. It reaches a clear
  only through the fallback `set` that runs when `update({})` raises.

## Model

| member | source | states |
|---|---|---|
| Aggregates.ValuesInKeyOrder | bot.py:156-157 | list(d.values()) holds the value of each key once, in the order the keys are taken, and nothing else |
| Aggregates.AppendIfAbsent | bot.py:158-159 | The id ends up in the list, the old list is kept as a prefix, and the id is appended exactly when it was missing |
| Aggregates.OccurrencesPositive | bot.py:158 | The `order_id not in current` test holds exactly when the id occurs zero times |
| Aggregates.OccurrencesAppend | bot.py:159 | Appending adds one occurrence of the appended value and none of any other |
| Aggregates.AppendIfAbsentSpec | bot.py:158-159 | After append-if-absent the id is present, the old list is a prefix, the length grows by at most one, the id occurs once if it was absent and as before if present, and other values keep their counts |
| Aggregates.AddOrderTxn | bot.py:153-160 | The add transaction aborts exactly on a value it cannot extend; when it commits a list, the list holds the order id |
| Aggregates.AddOrderRecords | bot.py:153-160 | From absent or a list holding the id at most once, the add txn commits a list holding the id exactly once, with the old list as its prefix and every other value's count unchanged |
| Aggregates.AddOrderNormalises | bot.py:156-157 | A dict value is first turned into the list of its values in key order |
| Aggregates.AddOrderIdempotent | bot.py:158-160 | A list already holding the id is committed unchanged |
| Aggregates.Without | bot.py:175 | The list comprehension keeps no more elements than it had |
| Aggregates.WithoutSpec | bot.py:175 | The filtered list has no occurrence of the id, is a subsequence of the input (order kept), and keeps every other value's count |
| Aggregates.WithoutAbsent | bot.py:175 | Removing an absent id leaves the list unchanged |
| Aggregates.WithoutAppend | bot.py:175 | Removing an id undoes appending it |
| Aggregates.WithoutNoDuplicates | bot.py:175 | Filtering keeps a list without repeats free of repeats |
| Aggregates.RemoveOrderTxn | bot.py:170-175 | A falsy value commits None; a value it cannot filter aborts; otherwise the committed list has no occurrence of the id |
| Aggregates.RemoveOrderRecords | bot.py:170-175 | An empty or absent list commits absent; otherwise the committed list has no occurrence of the id, keeps the other elements in their original order, and keeps their counts |
| Aggregates.AddThenRemove | bot.py:153-175 | Removing an order that was just added to a list that lacked it restores the list |
| Aggregates.TruncReal | bot.py:188 | int() of a float truncates toward zero |
| Aggregates.PyInt | bot.py:188 | int() of an int is itself, of a bool 0 or 1, of a float its truncation, of a string its integer literal, and raises on None, lists and dicts |
| Aggregates.IncrementTxn | bot.py:185-188 | Absent counts as 0 and the committed value is old + delta, always an integer |
| Aggregates.IncrementReadsDecimalString | bot.py:188 | A counter stored as a decimal string is read as its integer |
| Aggregates.AddOrderStep | bot.py:153-160 | One add transaction keeps the list free of repeats and adds exactly the id to its entries |
| Aggregates.RemoveOrderStep | bot.py:170-175 | One remove transaction keeps the list free of repeats and removes exactly the id from its entries |
| Aggregates.OpsLoseNothing | bot.py:150-188 | After any sequence of add, remove and increment transactions, the orders list has no duplicates, holds the initial ids plus the added ones minus the removed ones, and the counter equals its start plus the sum of the deltas |
| Aggregates.CounterCountsIncrements | bot.py:185-188 | n increments of 1 from absent yield n |
| Aggregates.DeltasOfOnes | bot.py:185-188 | n increments of 1 sum to n |
| Aggregates.NameTaken | bot.py:914 | The any() test answers true only when some dish has the name, false only when none has, and raises only on a malformed dish or a nameless food |
| Aggregates.AddFoodTxn | bot.py:912-918 | Absent becomes [food]; a value that is not a list aborts; a list commits either unchanged or with the food appended, and aborts only when a dish or the food lacks a name |
| Aggregates.AddFoodRecords | bot.py:912-918 | Absent becomes [food]; a list holding a dish with the same name is committed unchanged; otherwise exactly that food is appended |
| Aggregates.AddFoodNoDuplicateName | bot.py:912-918 | After the foods txn the list is well formed and holds a dish with that name |
| Json.SetChild | bot.py:613 | Writing a child sets it (None deletes it) and leaves the others |
| Json.IndexedChildren | bot.py:156-157 | A stored list is a node keyed "0", "1", … holding each element once |
| Text.StripSpec | bot.py:587 | str.strip returns the slice of the text that starts after its leading whitespace and is followed only by whitespace |
| Text.StripEmpty | bot.py:587 | The stripped text is empty exactly when the text is all whitespace |
| Text.Strip | bot.py:587 | str.strip leaves no leading or trailing whitespace and is no longer than the text |
| Text.StripNoSpace | bot.py:587 | Text without whitespace at its ends is its own strip |
| Text.StripAll | bot.py:715 | Stripping the pieces strips each one |
| Text.Split | bot.py:760 | split('|') has one piece more than there are separators, and no piece holds one |
| Text.JoinSplit | bot.py:760 | Joining the pieces with the separator restores the text |
| Text.RemoveChar | bot.py:578 | replace(",", "") removes every comma and keeps the count of every other character |
| Text.RemoveCharAppend | bot.py:578 | Removing from two pieces is removing from each, so the kept characters stay in order |
| Numerals.NatToString | bot.py:111 | The decimal form of a natural is all digits, with no leading zero |
| Numerals.NatToStringValue | bot.py:111 | The decimal form reads back as the number |
| Numerals.NatToStringInjective | bot.py:107-108 | Distinct user ids have distinct path keys |
| Numerals.IntToString | bot.py:107-108 | str(int) is digits with an optional leading minus |
| Numerals.IntRoundTrip | bot.py:1302 | int(str(i)) == i |
| Numerals.ParsePlain | bot.py:891 | int() of a run of ASCII digits is its value |
| Numerals.ParseNegative | bot.py:891 | int() of a minus sign and ASCII digits is the negated value |
| Numerals.NatRoundTrip | bot.py:1302 | int() reads back the decimal form of a natural |
| Numerals.NegativeRoundTrip | bot.py:1302 | int() reads back the decimal form of a negative integer |
| Numerals.ParseFloatLiteral | bot.py:581 | float() of a literal with a leading minus is not positive |
| Numerals.ParsePriceAsWritten | bot.py:576-581 | parse_price as written: None exactly when the digit guard (str.isdigit) fails; otherwise float() of the comma-free text, which is a non-negative number or raises |
| Numerals.ParsePrice | bot.py:576-581 | The corrected parse_price accepts exactly the text whose stripped, comma-free form with one dot removed is a non-empty run of ASCII digits; what it returns is non-negative and is float() of that form |
| Numerals.GuardedIsDecimal | bot.py:579-581 | Text that passes the digit guard is a plain decimal literal |
| Numerals.ParsePriceAgreesWithFloat | bot.py:576-581 | Wherever the corrected parse_price accepts, the code as written returns the same float; wherever it declines, the code does not return a number |
| Numerals.DecimalDropDot | bot.py:579 | A plain decimal literal passes the digit guard |
| Numerals.FloatOfPlain | bot.py:581 | float() of an unsigned, unpadded literal is its decimal value when it is decimal, and an error otherwise |
| Numerals.AcceptedIsAscii | bot.py:579-581 | When the guard passes and float() succeeds, the digits are ASCII |
| Numerals.ParsePriceOfDigits | bot.py:576-581 | A run of ASCII digits parses as its integer value |
| Numerals.ParsePriceOfNat | bot.py:576-581 | The decimal form of n parses as n |
| Numerals.ParsePriceAsWrittenRaises | bot.py:579-581 | "²" passes isdigit(), so the code as written calls float("²"), which raises; the corrected ParsePrice answers None |
| Numerals.SuperscriptTwoNoFloat | bot.py:579-581 | "²" is a Unicode digit but not an ASCII one, and float() rejects it |
| KeyOrder.StrLeTotal | bot.py:157 | Keys are totally ordered |
| KeyOrder.StrLeAntisym | bot.py:157 | The key order is antisymmetric |
| KeyOrder.StrLeTrans | bot.py:157 | The key order is transitive |
| KeyOrder.LeastExists | bot.py:157 | A non-empty key set has a least key |
| KeyOrder.LeastUnique | bot.py:157 | The least key is unique |
| KeyOrder.Ascending | bot.py:157 | A node's keys in ascending order, each once |
| KeyOrder.SortedKeys | bot.py:233 | The keys of a dict in the order the model takes them: each key once, ascending |
| StateStore.GetUserState | bot.py:315-316 | A missing record reads as {}; a present one as itself |
| StateStore.SetUserState | bot.py:309-313 | set_user_state overwrites the supplied keys, keeps the other keys of a non-empty merge, leaves {} for an empty one, and touches no other user |
| StateStore.ClearUserState | bot.py:318-322 | clear_user_state leaves {} and touches no other user |
| StateStore.SetUserStateMerges | bot.py:309-311 | update() overwrites exactly the supplied keys, keeps all others, and touches no other user |
| StateStore.SetEmptyClears | bot.py:309-313 | set_user_state(u, {}) takes the fallback set({}) and leaves the state empty |
| StateStore.ClearLeavesEmpty | bot.py:318-322 | clear_user_state leaves {} and touches no other user |
| StateStore.SetUserStateIdempotent | bot.py:309-313 | Writing the same partial state twice is the same as once |
| StateStore.SetOwnStateIsNoOp | bot.py:309-316 | Writing back the state just read changes nothing |
| StateStore.Store.constructor | bot.py:309-322 | The store starts empty |
| StateStore.Store.Get | bot.py:315-316 | Reads what GetUserState reads |
| StateStore.Store.Set | bot.py:309-313 | The new state map is the merge of the old one with the supplied keys |
| StateStore.Store.Clear | bot.py:318-322 | The new state map has the user's state emptied |
| Jobs.JobId | bot.py:227 | The job id is "order_" followed by the order id |
| Jobs.JobIdInjective | bot.py:227 | Distinct orders have distinct job ids |
| Jobs.Schedule | bot.py:222-229 | add_job with replace_existing: order_<id> carries the new instant, target and order, and every other job is kept |
| Jobs.ScheduleReplaces | bot.py:222-229 | After add_job with replace_existing the job order_<id> carries the new instant and target, no other job is for that order, every other job is unchanged, and the table grows only when the id was new |
| Jobs.ScheduleTwice | bot.py:222-229 | Scheduling one order twice leaves exactly the second job |
| Jobs.ItemLines | bot.py:207-208 | The item lines exist exactly when every item has a name, a qty and a price |
| Jobs.Dispatch | bot.py:197-216 | A notification goes out exactly when the order exists, is not served, and renders; it is for that order and chat and carries the order's total and one line per item |
| Jobs.DispatchSkipsDeadOrders | bot.py:199-201 | A missing or served order sends nothing |
| Jobs.RestaurantChat | bot.py:957-958 | The target is the restaurant's chat_id when it is truthy, otherwise its manager_chat_id; an absent restaurant gives None |
| Jobs.JobsOverKeys | bot.py:1598-1612 | The job table built over a set of orders holds order_<id> for exactly the orders that yield a job |
| Jobs.JobsOverAdds | bot.py:1598-1612 | One more order that yields a job adds exactly its job |
| Jobs.RestoreExactly | bot.py:1595-1616 | Restore registers order_<id> for exactly the orders whose status is "scheduled" and whose scheduled_for parses, at that instant and toward the restaurant's chat |
| Jobs.RestoredOverStep | bot.py:1598-1612 | Visiting one more order adds its job or nothing |
| Jobs.RestoreVisitAdds | bot.py:1598-1612 | Visiting a restorable order is one schedule_order_notification |
| Jobs.RestoreVisitSkips | bot.py:1599-1600 | Visiting any other order leaves the table unchanged |
| Jobs.Scheduler.constructor | bot.py:218-229 | The scheduler starts with no jobs |
| Jobs.Scheduler.ScheduleOrderNotification | bot.py:218-229 | The job table becomes Schedule of the old one |
| Jobs.Scheduler.RestoreOne | bot.py:1598-1612 | One loop iteration extends the restored table by that order |
| Jobs.Scheduler.Restore | bot.py:1595-1616 | After the loop the table is the old one overlaid with exactly the restorable orders' jobs |
| Jobs.Scheduler.Fire | bot.py:197-216 | A fired one-shot job leaves the table and sends what Dispatch decides; orders are not written |
| Listing.NamedEntries | bot.py:233-240 | Reading r["name"] succeeds exactly when every restaurant has a string name, giving one entry per restaurant |
| Listing.Matching | bot.py:236-237 | The filter keeps exactly the entries whose lowered name contains the lowered search |
| Listing.InsertSpec | bot.py:240 | Inserting keeps the list sorted by lowered name and adds exactly that entry |
| Listing.ConsSorted | bot.py:240 | An entry no greater than the rest may head the sorted list |
| Listing.SortByName | bot.py:240 | The sort orders by lowered name and is a permutation |
| Listing.Listed | bot.py:233-240 | The listing can be read exactly when every name is text (and the search is text or absent); it is sorted, holds exactly the restaurants offered for the search, and lists each of them once |
| Listing.MatchingDistinct | bot.py:236-237 | Filtering by the search keeps each restaurant at most once |
| Listing.PermutationDistinct | bot.py:240 | Sorting keeps each restaurant at most once |
| Listing.ListedCountsOffered | bot.py:233-242 | The listing is exactly as long as there are restaurants offered for the search |
| Listing.TotalPages | bot.py:242 | max(1, ⌈n/10⌉): at least one page, exactly one for no entries, enough pages for all, and no empty last page |
| Listing.PageOf | bot.py:242-263 | The page shows at most 10 entries; Prev appears exactly when page > 0 and points to page-1; Next appears exactly when page < total_pages-1 and points to page+1 |
| Listing.BuildRestaurantPage | bot.py:232-271 | The editor page exists exactly when the listing can be read; it shows at most 10 distinct restaurants, sorted, each offered for the search; its page count is max(1, ⌈n/10⌉) for the number n of offered restaurants |
| Listing.NamedEntriesMembers | bot.py:233-237 | The entries are exactly the stored restaurants with their names |
| Listing.SortedMembers | bot.py:240 | The sorted list is sorted and holds the same entries |
| Listing.EveryEntryOnItsPage | bot.py:243-249 | Entry i is shown on page i / 10 at position i % 10 |
| Listing.RestaurantMatches | bot.py:1074-1077 | The comprehension is defined when every restaurant has a string name (or none), and keeps exactly the restaurants whose lowered name contains the lowered query |
| Listing.Matches | bot.py:1072-1077 | The matches over all stored restaurants, in key order, each once, exactly those whose name contains the query |
| Listing.TakeMembers | bot.py:1084 | A prefix holds only results |
| Listing.ShowRestaurants | bot.py:1084-1088 | One button per result, in order |
| Listing.SearchRestaurants | bot.py:1070-1090 | The search raises exactly when a name is not text or one of the first ten matches has no name; "No restaurants found" exactly when nothing matches; otherwise the hits are the first min(n, 10) matches in key order, with their names |
| Listing.NoHitsMeansNoMatch | bot.py:1079-1081 | "No restaurants found" means no stored name contains the query |
| Listing.SearchRestaurantsSound | bot.py:1070-1090 | Every hit shown is a stored restaurant whose name contains the query |
| Listing.UnshownMatchesComeLater | bot.py:1084 | A match that is not shown comes, in key order, after all ten shown |
| Listing.IterateAsWritten | bot.py:1098 | Iterating r.get("foods", []): None gives nothing, a list its elements, a dict its keys as strings (each once), a string its characters, and any other value raises |
| Listing.Dishes | bot.py:1098 | Iterating the dishes as intended: a list's elements, or a keyed menu's values, one per key in key order |
| Listing.StopAt | bot.py:1098-1101 | The inner loop moves past exactly the dishes before the first one that matches or raises |
| Listing.FirstMatch | bot.py:1098-1101 | The inner loop gives the first dish it does not move past when that dish matches, no match exactly when it moves past every dish, and raises otherwise |
| Listing.FoodMatches | bot.py:1095-1101 | At most one hit per restaurant visited, each carrying its own restaurant |
| Listing.OneHitPerRestaurant | bot.py:1098-1101 | The break gives every restaurant at most one hit |
| Listing.FoodMatchesRaises | bot.py:1095-1101 | The search raises exactly when some restaurant's scan raises |
| Listing.FoodHitsMatch | bot.py:1098-1101 | Each hit is its restaurant's first matching dish |
| Listing.FoodHitsComplete | bot.py:1095-1101 | Every restaurant with a matching dish has a hit |
| Listing.ScanLoop | bot.py:1098-1101 | The inner for/break loop returns the first matching dish, or no match, or raises |
| Listing.FoodMatchesStep | bot.py:1097-1101 | The outer loop: a raise ends the search, no match skips, a match prepends one hit |
| Listing.PrefixedAppend | bot.py:1101 | Appending hits one at a time is appending them together |
| Listing.ScanOne | bot.py:1098-1101 | One outer iteration computes that restaurant's scan |
| Listing.CollectHits | bot.py:1095-1101 | The outer loop collects exactly FoodMatches over the restaurants in key order |
| Listing.SearchFoodLoop | bot.py:1092-1101 | The food search lowers the query and scans the restaurants in key order |
| Listing.Shown | bot.py:1103-1119 | A hit list is shown as its first 10 entries, and only when it is non-empty; it raises exactly when the scan raised or a shown hit has no name |
| Listing.SearchOutcome | bot.py:1092-1119 | "No matches" exactly when every scan ends without a match; every hit is a stored restaurant's first matching dish |
| Listing.SearchShowsFirstTen | bot.py:1096-1119 | The search raises exactly when a scan raises or a shown hit has no name; what it shows is the first ten hits of the key-order scan, from distinct restaurants |
| Listing.SearchFoodsAsWritten | bot.py:1092-1119 | The food search as written, iterating foods directly: "No matches" exactly when no scan matches; a raise exactly when a scan raises or a shown hit has no name; otherwise the first ten hits in key order, from distinct restaurants, each its restaurant's first matching dish |
| Listing.SearchFoods | bot.py:1092-1119 | The corrected food search, reading dishes with Dishes, with the same properties |
| Listing.SingleDish | bot.py:1098 | A keyed menu with one dish yields that dish |
| Listing.KeyedScanAsWritten | bot.py:1098-1100 | Scanning a keyed menu as written reads f.get on a key string and raises |
| Listing.KeyedScanIntended | bot.py:1098-1100 | Scanning the same menu by its dishes finds the soup |
| Listing.FoodMatchesOne | bot.py:1097-1101 | Searching one restaurant gives its one hit, none, or a raise |
| Listing.KeyedMenuAsWritten | bot.py:611-613 | As written, the search over a restaurant whose dish was added by the price step raises |
| Listing.KeyedMenuIntended | bot.py:611-613 | Over the dishes, the same search finds the dish |
| Listing.KeyedSearchRaises | bot.py:1092-1101 | The whole food search as written raises on that restaurant |
| Listing.KeyedSearchFinds | bot.py:1092-1119 | The corrected food search shows the dish |
| Listing.KeyedMenuSearch | bot.py:1092-1119 | The food search as written crashes on a keyed menu, and the corrected search shows the dish |
| Listing.ListMenusAgree | bot.py:1092-1119 | Where no restaurant holds a keyed menu, the search as written and the corrected one agree |
| Listing.FoodMatchesAgree | bot.py:1095-1101 | The same, restaurant by restaurant |
| BotWorld.WithChild | bot.py:613 | Writing <k>/<child> sets that child, creates the record if needed, and keeps its other children and the other records |
| BotWorld.WithGrandchild | bot.py:613 | Writing <k>/foods/<id> sets exactly that dish and keeps the rest |
| BotWorld.ClearState | bot.py:318-322 | clear_user_state on the world changes only the states and leaves the user's empty |
| TextHandler.PricedFood | bot.py:606-608 | The saved dish is the state's dish with its price set and nothing else changed |
| TextHandler.AddFoodModeNameStep | bot.py:590-597 | The name step keeps the dish's name and the price step in the state, asks for the price, and writes no restaurant |
| TextHandler.PriceStepDispatches | bot.py:599-604 | A positive price at the price step goes on to save the dish |
| TextHandler.SaveDishStores | bot.py:606-617 | A named dish for a valid restaurant id is written at foods/<fresh id> with its price, the state is cleared and the dish announced |
| TextHandler.SaveDish | bot.py:606-617 | The price step always finishes the message |
| TextHandler.RestaurantReply | bot.py:1070-1090 | The reply is a crash exactly when the search raised |
| TextHandler.FoodReply | bot.py:1092-1119 | The reply is a crash exactly when the search raised |
| TextHandler.AwaitingSearchReplies | bot.py:619-632 | A pending search empties the state first; a restaurant or food search is answered, with a crash exactly when that search raises; any other kind passes the message on |
| TextHandler.EditingRestNameButton | bot.py:635-646 | The editor's name button stores editing_rest, the same rid and edit_step "name", asks for the name, and writes nothing else |
| TextHandler.EditingRestCancel | bot.py:689-692 | The editor's cancel button empties the state, answers "Edit cancelled" and writes nothing else |
| TextHandler.EditNameRenames | bot.py:696-701 | The new name is written to that restaurant alone, its other fields kept, and the state is emptied |
| TextHandler.AwaitingEditSearchPages | bot.py:703-711 | The editor's search empties the state and raises exactly when some stored name is not text |
| TextHandler.AwaitingFoodDataSplits | bot.py:713-721 | A line that does not split into three fields is asked for again and nothing is written; one that does goes on to SaveSharedDish |
| TextHandler.SharedDish | bot.py:725-729 | The shared dish holds the name, int(people) and the description of the line |
| TextHandler.SaveSharedDish | bot.py:723-732 | A line whose people field is an integer saves name, people and description under the fresh id among the shared foods, empties the state, and writes nothing else |
| TextHandler.SaveSharedDishRaises | bot.py:725-729 | A people field int() rejects raises before anything is written |
| TextHandler.RegRestStepSubmits | bot.py:775-800 | The description step of a registration is the submission |
| TextHandler.Submission | bot.py:776-777 | The submitted registration has the description and the manager's id added, and every other field kept |
| TextHandler.SubmitRaises | bot.py:779-794 | Without a name, or with dishes len() rejects, the state is emptied and then the summary raises before any message |
| TextHandler.SubmitSends | bot.py:779-800 | Otherwise the state is emptied, every administrator gets the request in order, and then the manager is told |
| TextHandler.ToAdmins | bot.py:797-798 | One approval request to each administrator, in order |
| TextHandler.FlowStart | bot.py:802-820 | The state that starts a flow holds exactly its flag, step "name", empty data and add_flow off |
| TextHandler.AddFlowRestaurant | bot.py:802-811 | The restaurant button starts the restaurant flow at its name step and writes only the state |
| TextHandler.AddFlowFood | bot.py:812-820 | The food button starts the dish flow at its name step and writes only the state |
| TextHandler.UserMatches | bot.py:854-857 | The manager search keeps exactly the users whose phone or name contains the query |
| TextHandler.AddRestNameStep | bot.py:821-833 | The name step stores the name in the data and moves to the phone step, writing only the state |
| TextHandler.AddRestManagerSearch | bot.py:849-873 | The manager search writes nothing; with no match it asks again, otherwise it offers the first five matches |
| TextHandler.AddFoodPeopleStep | bot.py:875-897 | The dish flow's people step goes on to SaveCatalogueDish with the stripped text |
| TextHandler.SaveCatalogueDish | bot.py:890-897 | A number of people int() accepts stores the dish with that number under the fresh id in the global foods, keeps its other fields, empties the state, and writes nothing else |
| TextHandler.SaveCatalogueDishRaises | bot.py:891 | A number of people int() rejects raises before anything is written |
| TextHandler.AwaitingFoodPriceRejects | bot.py:899-904 | A price float() rejects is asked for again and nothing is written |
| TextHandler.AwaitingFoodPriceAborts | bot.py:906-917 | A price whose transaction raises leaves everything unwritten and raises |
| TextHandler.AwaitingFoodPriceAppends | bot.py:906-920 | A price whose transaction commits goes on to CommitFood with the committed list |
| TextHandler.CommitFood | bot.py:918-922 | The restaurant's list is the committed value, no other restaurant changes, the state is emptied, and the reply raises exactly when the dish has no name |
| TextHandler.RunAt | bot.py:929-941 | "asap"/"now" is the current instant; any other text is what the date parser makes of it |
| TextHandler.PlacedOrder | bot.py:943-951 | The stored order is the pending one with order_id, scheduled_for (isoformat), status "scheduled" and created_at set, and nothing else changed |
| TextHandler.RecordOrder | bot.py:953-955 | Recording an order touches only its restaurant |
| TextHandler.OrdersOf | bot.py:1050-1058 | "My orders" lists every order of the user and no other, each with its status, and raises exactly when one of the user's orders has no status |
| TextHandler.MenuText | bot.py:967-1064 | Every menu text is answered |
| TextHandler.Chain | bot.py:584-1064 | The guard chain always finishes the message |
| TextHandler.HandleText | bot.py:584-1064 | general_text_handler always finishes the message |
| ConversationProperties.UnflaggedGuardPasses | bot.py:590-926 | A guard whose flag is not set passes the message on and writes nothing |
| ConversationProperties.ChainSkips | bot.py:590-926 | Guards whose flags are unset are skipped |
| ConversationProperties.ChainStep | bot.py:590-926 | One unset guard is skipped |
| ConversationProperties.ReachesGuard | bot.py:590-926 | The first guard that handles the message decides the outcome |
| ConversationProperties.FirstGuard | bot.py:590 | add_food_mode is tried first |
| ConversationProperties.RegistrationGuard | bot.py:734 | reg_rest_step is the seventh guard |
| ConversationProperties.HandledBy | bot.py:590-926 | The outcome of the first guard that handles the message is the handler's outcome |
| ConversationProperties.ReachesMenu | bot.py:967-1064 | With no guard flag set, the menu texts decide |
| ConversationProperties.UnknownTextWritesNothing | bot.py:1064 | With an empty state, an unknown text gets "Unknown command" and writes nothing |
| ConversationProperties.InvalidPriceWritesNothing | bot.py:599-604 | A price that does not parse, or is not positive, re-prompts and writes nothing |
| ConversationProperties.ValidPriceSavesDish | bot.py:599-617 | A positive price saves the dish with that price under the restaurant, clears the state, and leaves orders and jobs alone |
| ConversationProperties.PriceStepSaves | bot.py:606-617 | The price step's exact new world and reply |
| ConversationProperties.NameClashSpec | bot.py:743-746 | The any() test is true exactly when some restaurant has the name, ignoring case, and is defined when every name is text |
| ConversationProperties.ClashFound | bot.py:743-746 | An existing name, ignoring case, is found |
| ConversationProperties.DuplicateNameWritesNothing | bot.py:739-746 | A restaurant name equal to an existing one, ignoring case, re-prompts and writes nothing |
| ConversationProperties.NameStepRejects | bot.py:743-746 | The name step rejects a clash |
| ConversationProperties.FreshNameRecorded | bot.py:739-757 | A fresh name is stored in the registration and the flow moves to the foods step; restaurants are not written |
| ConversationProperties.ClashAbsent | bot.py:743-746 | A name no restaurant has is not found |
| ConversationProperties.NameStepSaves | bot.py:748-757 | The name step's exact new state and reply |
| ConversationProperties.MalformedCustomFoodWritesNothing | bot.py:758-763 | A custom food line without exactly four pieces re-prompts and writes nothing |
| ConversationProperties.CustomFoodAppended | bot.py:758-772 | A well-formed custom food line appends exactly that dish to the registration's foods; restaurants are not written |
| ConversationProperties.RegistrationMoves | bot.py:772 | Writing the step and the registration stores both |
| ConversationProperties.CustomStepAppends | bot.py:765-772 | The custom food step's exact new state and reply |
| ConversationProperties.NowInAnyCase | bot.py:929 | "ASAP", "asap", "Now" and "NOW" all mean now |
| ConversationProperties.ScheduleGuardDecides | bot.py:926 | When the first eleven guards' flags are unset and awaiting_schedule and pending_order are set, awaiting_schedule decides, whatever the text and whatever other keys the state holds |
| ConversationProperties.EarlyFlags | bot.py:590-925 | No earlier guard tests awaiting_schedule or pending_order |
| ConversationProperties.LastGuard | bot.py:926 | awaiting_schedule is the last guard |
| ConversationProperties.InvalidTimeWritesNothing | bot.py:929-941 | An unparseable schedule time re-prompts and writes nothing |
| ConversationProperties.RecordOrderCounts | bot.py:953-955 | The order id is appended to the restaurant's orders, orders_count rises by 1, and nothing else in the record changes |
| ConversationProperties.ScheduleCommits | bot.py:926-964 | A parseable time stores the order as scheduled, adds it to the restaurant's orders and count, registers order_<id> at that instant toward the restaurant's chat, clears the state, and touches nothing else |
| ConversationProperties.ScheduleStepPlaces | bot.py:943-964 | The schedule step's exact new world and reply |
| ConversationProperties.OfferedQuantities | bot.py:1443-1452 | Every quantity button is a pick_qty payload for a quantity in 1..5 |
| ConversationProperties.PickQtyPends | bot.py:1466-1501 | pick_qty stores the pending order and awaiting_schedule and asks for a time |
| ConversationProperties.PickQtyPrices | bot.py:1466-1501 | The pending order's total and its one item's price are the dish's unit price × qty; only the user's state changes |
| ConversationProperties.PendingOrderStored | bot.py:1490-1493 | The stored state holds awaiting_schedule and the pending order |
| ConversationProperties.PickThenAsap | bot.py:926-964 | Picking a quantity and then answering "asap" places a scheduled order at the current instant, priced unit × qty, with its job and a cleared state |
| ConversationProperties.AsapPlacesPending | bot.py:926-964 | Answering "asap" to a pending order places it now |
| ConversationProperties.PlacedNow | bot.py:943-960 | The order placed now is scheduled, carries the pending total, and has its job at now |
| ConversationProperties.PendingAwaitsTime | bot.py:1490-1493 | After pick_qty the schedule guard is armed |
| ConversationProperties.AttemptFinishNeverRejected | bot.py:1586-1592 | attempt_finish only calls try_finalize when every check passes, so it never reports a rejection |
| ConversationProperties.ManagerRecorded | bot.py:1296-1318 | Selecting a manager stores int(uid) in the pending registration; a complete one is saved with that manager and the state cleared, an incomplete one is kept |
| ConversationProperties.PendingRestStored | bot.py:1304-1306 | The pending registration is stored |
| ConversationProperties.AttemptFinishWith | bot.py:1586-1592 | An incomplete registration changes nothing; a complete one is saved and the state cleared |
| ConversationProperties.EditRestOpens | bot.py:1227-1252 | A missing restaurant is answered "not found" and writes nothing; a stored one opens the editor on its id without writing restaurants |
| ConversationProperties.SearchEmptiesStateFirst | bot.py:619-623 | A search answer empties the state before searching and writes no restaurants |
| Callbacks.SaveRestaurantAndFinish | bot.py:1121-1134 | Saving the collected record always finishes the press |
| Callbacks.EditRest | bot.py:1227-1252 | The edit_rest press always finishes |
| Callbacks.RestaurantRecord | bot.py:1562-1576 | The record carries the id, name, foods (default []), manager, location and timestamp, image fields exactly when truthy in the pending record, and no other field |
| Callbacks.TryFinalize | bot.py:1550-1580 | The checks fail in the order "Name missing", "Manager missing", "Location missing", and the record is saved exactly when all three pass; then it carries the name, manager and location, image fields only when set, the state is cleared and no other restaurant changes; a pending value that is not a record raises |
| Callbacks.AttemptFinish | bot.py:1586-1592 | attempt_finish always returns |
| Callbacks.SelectRestManager | bot.py:1296-1318 | The add_rest_select_manager press always finishes |
| Callbacks.QtyPayload | bot.py:1446-1451 | A quantity button's payload names pick_qty, the restaurant, the dish and the quantity |
| Callbacks.QtyButtons | bot.py:1443-1452 | One button per quantity 1..5, in order |
| Callbacks.ChooseFood | bot.py:1438-1463 | choose_food writes nothing |
| Callbacks.LookupStop | bot.py:1472 | next() moves past exactly the named dishes before the first that has the name or has none |
| Callbacks.FindDish | bot.py:1472 | next(...) gives the first dish with that name, None exactly when every dish is named and none has it, and raises when it reaches a dish without a name first |
| Callbacks.KeysAreNotDishes | bot.py:1472 | Iterating a non-empty keyed record as written yields a key string first, which is not a dish |
| Callbacks.PickLookupAsWritten | bot.py:1472 | As written, a list of dishes is searched with FindDish, and a non-empty keyed record raises |
| Callbacks.PickLookup | bot.py:1472 | The corrected lookup is the lookup as written except on a keyed record, where a dish it finds is a stored dish with that name |
| Callbacks.KeyedPickAsWritten | bot.py:1472 | On a restaurant whose dish was written under foods/<id>, pick_qty's lookup as written raises |
| Callbacks.KeyedPickIntended | bot.py:1472 | The corrected lookup finds that dish |
| Callbacks.PendingOrder | bot.py:1478-1488 | The pending order carries the restaurant, one item of qty × unit price, that total, and the user's id, name and phone |
| Callbacks.PickQty | bot.py:1466-1501 | The pick_qty press always finishes |
| Callbacks.HandleCallback | bot.py:1137-1503 | callback_handler always finishes the press |

## Left out

- Telegram transport: messages are abstract `Msg` values, without wording, keyboards or captions. Photos are not sent. The "My orders" reply carries each order's id and status, not its `scheduled_for`.
- The handlers for `/start`, `/menu`, `/add`, `/edit`, `/delete`, `/add_food` and `/listrestaurants`, and for contacts, locations and photos. They are not part of this model. None of the modelled core depends on them.
- The callback actions `edit_page`, `food_page`, `add_food_existing`, `cancel_add_rest_food`, `confirm_delete_rest`, `add_existing_food`, `select_rest`, `view_menu` and `select_rest_food` are answered with `Unmodelled(action)`. Their store effects are not modelled.
- `build_food_page`: it refers to an undefined `rid` and is called with the wrong arguments, so it has no intended behaviour to model.
- TextHandler.MenuText: the Top-rated, Fastest and Closest rankings are always answered with `Rankings(...)`, without contents and without their failure paths. The code raises on a ranked restaurant without a name (bot.py:997, 1015, 1044) or on a location without `lon`/`lat` (bot.py:1035). The rankings need Firebase queries and `haversine`'s floating-point trigonometry.
- Key order: the model assumes that the database returns a node's children in ascending code-point order of their keys, and that every loop over a dictionary follows it. A plain Firebase `get` promises no order, and Firebase's own key order puts integer-like keys first, in numeric order. Where the source's results depend on that order (the first ten search hits, the order of restored jobs' registration, `list(d.values())`), the model's order is this assumed one.
- Firebase drops empty dicts, empty lists and None children when it stores a value. The model keeps them, except that `Json.SetChild` deletes a child written as `Null`. The `.sv` timestamp sentinel is the constant `ServerTimestamp`.
- StateStore.SetUserState: assumes that `update({})` raises and that a non-empty update does not (predicate `UpdateRaises`). This is library behaviour the code does not show, so it is taken as given, not proved.
- Transactions are applied atomically. Firebase's retry loop, the BackgroundScheduler thread and every concurrent interleaving are out of scope.
- The scheduler fires a job at its instant. The model has `Fire`, with no notion of time passing.
- `dateutil.parser.parse`, `datetime.isoformat`, `uuid4` and `datetime.utcnow` are parameters in `Env`, not modelled. Time zones are not modelled: an instant is an integer.
- Floats are `real`. Rounding is not modelled. `float()` and `int()` are modelled on plain ASCII decimal literals only: no exponents, `inf` or `nan`, underscores, or non-ASCII digits other than `str.isdigit`'s superscripts.
- Text.Lower: it lowers ASCII letters only. Python's Unicode case mapping is not modelled.
- Json.PathKey: a path segment is a non-empty string or an integer. Other values are treated as an error. Keys containing `/`, `.`, `$`, `#`, `[`, `]` or `?`, which Firebase rejects, are accepted as they are.
- The Flask webhook, start-up configuration and `upload_telegram_photo_to_firebase` are not part of this model.
- Listing.SortByName: stability is not stated. Entries with names equal ignoring case may come out in any order the proof allows, which Python's stable sort fixes.
- AddFoodMode: it calls the corrected `Numerals.ParsePrice`, so the price "²" is answered with the invalid-price prompt, where the code as written raises (see "## Findings").
- InvalidPriceWritesNothing: it is proved of the corrected parser; on "²" the code as written raises instead of re-prompting.
- AwaitingSearch: the food search reads the dishes with `Listing.Dishes` (`Listing.SearchFoods`), so a restaurant whose dishes are stored under `foods/<id>` is searched, where the code as written raises (`Listing.SearchFoodsAsWritten`).
- PickQty: the dish lookup reads the dishes with `Listing.Dishes` (`Callbacks.PickLookup`), so a keyed menu is searched, where the code as written raises (`Callbacks.PickLookupAsWritten`).
- PickQtyPends, PickQtyPrices and PickThenAsap: they rest on the corrected lookup, so on a keyed menu they state the intended behaviour, not the raise of the code as written.
- Chain and HandleText: they chain the handlers above, so on "²" and on keyed menus they follow the corrected reading. Their own contracts only say that the message is handled.
- Callbacks.SaveRestaurantAndFinish, Callbacks.EditRest, Callbacks.SelectRestManager, Callbacks.ChooseFood, Callbacks.AttemptFinish, Callbacks.PickQty, Callbacks.HandleCallback, TextHandler.MenuText and TextHandler.SaveDish: their own contracts only say the event is handled. The effects that are stated are in ConversationProperties.EditRestOpens, ManagerRecorded, AttemptFinishWith, AttemptFinishNeverRejected, PickQtyPends, PickQtyPrices, UnknownTextWritesNothing, ReachesMenu, ValidPriceSavesDish and in TextHandler.SaveDishStores. The saving of a collected restaurant record (SaveRestaurantAndFinish), the dispatch of HandleCallback and most MenuText branches have no lemma of their own.

## Findings

| source | as written | input that shows it | evidently intended | confidence | as-written member | corrected member |
|---|---|---|---|---|---|---|
| bot.py:579-581 | `isdigit()` also accepts Unicode digits such as "²", which `float()` rejects, so `parse_price` raises instead of returning None | the price text "²" | text that is not a number gives None and the "Invalid price" prompt | not executed | Numerals.ParsePriceAsWrittenRaises | Numerals.ParsePriceAgreesWithFloat |
| bot.py:611-613, 1098-1100 | the price step writes the dish as the keyed child `foods/<id>`, while the food search iterates `foods` as a list, so it iterates key strings and `f.get` raises | a restaurant whose only dish was added through `add_food_mode`, searched for "soup" | the search finds dishes stored under keys too | not executed | Listing.KeyedMenuAsWritten | Listing.KeyedMenuSearch |
| bot.py:611-613, 1472 | pick_qty looks the dish up with `f["name"]` over `rest.get("foods", [])`, which on a keyed `foods` record iterates key strings, and indexing a string with "name" raises | pick_qty for "soup" on a restaurant whose only dish was added through `add_food_mode` | the dish stored under `foods/<id>` is found and priced | not executed | Callbacks.KeyedPickAsWritten | Callbacks.KeyedPickIntended |
