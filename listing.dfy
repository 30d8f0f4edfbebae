/**
 * The listing helpers: the paged restaurant picker of the edit flow
 * (bot.py, build_restaurant_page) and the two searches
 * (handle_search_restaurant_query, handle_search_food_query).
 */
module Listing {
  import opened Wrappers
  import opened Text
  import opened Json
  import opened KeyOrder

  const PageSize: nat := 10

  /** A restaurant as the picker lists it: its id and its name. */
  datatype Entry = Entry(rid: string, name: string)

  /**
   * The restaurants with ids keys, in that order, paired with their names;
   * None when one of them has no string name (indexing or lower() raises).
   */
  function NamedEntries(keys: seq<string>, rs: map<string, Dict>): (r: Option<seq<Entry>>)
    requires forall k :: k in keys ==> k in rs
    ensures r.Some? <==> forall i :: 0 <= i < |keys| ==> Get(rs[keys[i]], "name").Str?
    ensures r.Some? ==> |r.value| == |keys|
    ensures r.Some? ==> forall i :: 0 <= i < |keys| ==> r.value[i] == Entry(keys[i], rs[keys[i]]["name"].s)
    decreases |keys|
  {
    if keys == [] then Some([])
    else
      var n := Get(rs[keys[0]], "name");
      if !n.Str? then None
      else match NamedEntries(keys[1..], rs)
        case None => None
        case Some(rest) => Some([Entry(keys[0], n.s)] + rest)
  }

  /** The entries whose lowered name contains the lowered query, in order. */
  function Matching(es: seq<Entry>, query: string): (r: seq<Entry>)
    ensures forall e :: e in r <==> e in es && Contains(Lower(e.name), Lower(query))
    ensures |r| <= |es|
    decreases |es|
  {
    if es == [] then []
    else (if Contains(Lower(es[0].name), Lower(query)) then [es[0]] else []) + Matching(es[1..], query)
  }

  /** a's sort key (its lowered name) is at most b's. */
  predicate KeyLe(a: Entry, b: Entry)
  {
    StrLe(Lower(a.name), Lower(b.name))
  }

  predicate SortedByName(s: seq<Entry>)
  {
    forall i, j :: 0 <= i < j < |s| ==> KeyLe(s[i], s[j])
  }

  /** Insert e after every entry whose key is at most e's, keeping equal keys in arrival order. */
  function Insert(e: Entry, s: seq<Entry>): seq<Entry>
    decreases |s|
  {
    if s == [] then [e]
    else if !KeyLe(s[0], e) then [e] + s
    else [s[0]] + Insert(e, s[1..])
  }

  /**
   * list.sort(key=name.lower()): a stable sort, here by insertion. The
   * result is sorted by lowered name and holds exactly the same entries.
   */
  function SortByName(es: seq<Entry>): (r: seq<Entry>)
    ensures SortedByName(r)
    ensures multiset(r) == multiset(es)
    decreases |es|
  {
    if es == [] then []
    else
      var sorted := SortByName(es[..|es| - 1]);
      InsertLast(es, sorted);
      Insert(es[|es| - 1], sorted)
  }

  /** Inserting the last entry into a sorting of the others sorts them all. */
  lemma InsertLast(es: seq<Entry>, sorted: seq<Entry>)
    requires es != []
    requires SortedByName(sorted) && multiset(sorted) == multiset(es[..|es| - 1])
    ensures SortedByName(Insert(es[|es| - 1], sorted))
    ensures multiset(Insert(es[|es| - 1], sorted)) == multiset(es)
  {
    InsertSpec(es[|es| - 1], sorted);
    assert es == es[..|es| - 1] + [es[|es| - 1]];
  }

  lemma {:induction false} InsertSpec(e: Entry, s: seq<Entry>)
    requires SortedByName(s)
    ensures SortedByName(Insert(e, s))
    ensures multiset(Insert(e, s)) == multiset(s) + multiset{e}
    decreases |s|
  {
    if s == [] {
    } else if !KeyLe(s[0], e) {
      var r := [e] + s;
      forall i, j | 0 <= i < j < |r|
        ensures KeyLe(r[i], r[j])
      {
        if i == 0 {
          StrLeTotal(Lower(s[0].name), Lower(e.name));
          if j > 1 {
            StrLeTrans(Lower(e.name), Lower(s[0].name), Lower(s[j - 1].name));
          }
        }
      }
    } else {
      var t := s[1..];
      assert SortedByName(t) by {
        forall i, j | 0 <= i < j < |t|
          ensures KeyLe(t[i], t[j])
        {
          assert t[i] == s[i + 1] && t[j] == s[j + 1];
        }
      }
      InsertSpec(e, t);
      assert forall k :: 0 <= k < |t| ==> t[k] == s[k + 1];
      ConsSorted(s[0], e, t, Insert(e, t));
      assert s == [s[0]] + t;
    }
  }

  /** An entry whose key is at most e's and every key of t stays first before an ordering of t and e. */
  lemma ConsSorted(x: Entry, e: Entry, t: seq<Entry>, it: seq<Entry>)
    requires SortedByName(it) && multiset(it) == multiset(t) + multiset{e}
    requires KeyLe(x, e) && forall k :: 0 <= k < |t| ==> KeyLe(x, t[k])
    ensures SortedByName([x] + it)
  {
    var r := [x] + it;
    forall i, j | 0 <= i < j < |r|
      ensures KeyLe(r[i], r[j])
    {
      if i == 0 {
        var y := r[j];
        assert y in multiset(it);
        assert y == e || y in multiset(t);
        if y != e {
          var k :| 0 <= k < |t| && t[k] == y;
        }
      } else {
        assert r[i] == it[i - 1] && r[j] == it[j - 1];
      }
    }
  }

  /** max(1, ceil(n / PAGE_SIZE)) */
  function TotalPages(n: nat): (t: nat)
    ensures t >= 1
    ensures n == 0 ==> t == 1
    ensures n <= t * PageSize
    ensures n > 0 ==> (t - 1) * PageSize < n
  {
    var c := (n + PageSize - 1) / PageSize;
    if c >= 1 then c else 1
  }

  /** One page of the picker: the restaurants shown and the pages Prev and Next lead to. */
  datatype Page = Page(shown: seq<Entry>, prev: Option<nat>, next: Option<nat>, totalPages: nat)

  function Min(a: int, b: int): int
  {
    if a <= b then a else b
  }

  /** Every restaurant has a string name, so r["name"].lower() succeeds on each. */
  predicate AllNamed(rs: map<string, Dict>)
  {
    forall k :: k in rs ==> Get(rs[k], "name").Str?
  }

  /** The picker lists e: a stored restaurant under its name, matching the search if there is one. */
  predicate Offered(rs: map<string, Dict>, search: Value, e: Entry)
  {
    e.rid in rs && Get(rs[e.rid], "name") == Str(e.name) &&
    (!Truthy(search) || (search.Str? && Contains(Lower(e.name), Lower(search.s))))
  }

  /**
   * The restaurants the picker offers across all pages, in display order:
   * sorted by lowered name, and exactly the restaurants the search matches
   * (all of them for no search). None when it raises: a restaurant without
   * a string name, or a search that is not a string while there is a
   * restaurant to filter.
   */
  function Listed(rs: map<string, Dict>, search: Value): (r: Option<seq<Entry>>)
    ensures r.Some? <==> AllNamed(rs) && (!Truthy(search) || search.Str? || rs == map[])
    ensures r.Some? ==> SortedByName(r.value)
    ensures r.Some? ==> forall e :: e in r.value <==> Offered(rs, search, e)
    ensures r.Some? ==> DistinctRids(r.value)
  {
    var keys := SortedKeys(rs);
    NamedKeys(keys, rs);
    match NamedEntries(keys, rs)
    case None => None
    case Some(es) =>
      NamedEntriesMembers(keys, rs);
      if !Truthy(search) then SortedMembers(es); Some(SortByName(es))
      else if search.Str? then
        MatchingDistinct(es, search.s);
        SortedMembers(Matching(es, search.s));
        Some(SortByName(Matching(es, search.s)))
      else if es == [] then Some([])
      else None
  }

  /** The ids of the restaurants the picker offers for the search. */
  function OfferedIds(rs: map<string, Dict>, search: Value): set<string>
  {
    set k | k in rs && Get(rs[k], "name").Str? && Offered(rs, search, Entry(k, Get(rs[k], "name").s))
  }

  /** A list of the offered restaurants without repeated ids is as long as there are offered restaurants. */
  lemma CountOffered(s: seq<Entry>, rs: map<string, Dict>, search: Value)
    requires DistinctRids(s)
    requires forall e :: e in s <==> Offered(rs, search, e)
    ensures |s| == |OfferedIds(rs, search)|
  {
    DistinctCount(s);
    forall k | k in Rids(s)
      ensures k in OfferedIds(rs, search)
    {
      var e :| e in s && e.rid == k;
      assert Offered(rs, search, e);
    }
    forall k | k in OfferedIds(rs, search)
      ensures k in Rids(s)
    {
      var e := Entry(k, Get(rs[k], "name").s);
      assert e in s;
    }
    assert Rids(s) == OfferedIds(rs, search);
  }

  /** The picker lists each offered restaurant once, so the listing is as long as there are offered restaurants. */
  lemma ListedCountsOffered(rs: map<string, Dict>, search: Value)
    requires Listed(rs, search).Some?
    ensures |Listed(rs, search).value| == |OfferedIds(rs, search)|
  {
    CountOffered(Listed(rs, search).value, rs, search);
  }

  lemma NamedKeys(keys: seq<string>, rs: map<string, Dict>)
    requires forall k :: k in keys <==> k in rs
    ensures (forall i :: 0 <= i < |keys| ==> Get(rs[keys[i]], "name").Str?) <==> AllNamed(rs)
  {
    if AllNamed(rs) {
    } else {
      var k :| k in rs && !Get(rs[k], "name").Str?;
      var i :| 0 <= i < |keys| && keys[i] == k;
    }
  }

  /** The page-th page of a list of restaurants and its navigation. */
  function PageOf(sorted: seq<Entry>, page: nat): (p: Page)
    ensures p.totalPages == TotalPages(|sorted|)
    ensures |p.shown| <= PageSize
    ensures p.prev.Some? <==> page > 0
    ensures page > 0 ==> p.prev == Some(page - 1)
    ensures p.next.Some? <==> page + 1 < p.totalPages
    ensures page + 1 < p.totalPages ==> p.next == Some(page + 1)
    ensures forall e :: e in p.shown ==> e in sorted
    ensures SortedByName(sorted) ==> SortedByName(p.shown)
    ensures DistinctRids(sorted) ==> DistinctRids(p.shown)
  {
    var total := TotalPages(|sorted|);
    var start := Min(page * PageSize, |sorted|);
    var end := Min(page * PageSize + PageSize, |sorted|);
    Page(sorted[start..end],
         if page > 0 then Some(page - 1) else None,
         if page < total - 1 then Some(page + 1) else None,
         total)
  }

  /**
   * build_restaurant_page(page, search): up to ten offered restaurants, in
   * order of lowered name, with Prev exactly on pages after the first and
   * Next exactly before the last. None when it raises: a restaurant
   * without a string name, or a search that is not a string while there is
   * a restaurant to filter.
   */
  function BuildRestaurantPage(rs: map<string, Dict>, page: nat, search: Value): (r: Option<Page>)
    ensures r.Some? <==> AllNamed(rs) && (!Truthy(search) || search.Str? || rs == map[])
    ensures r.Some? ==> |r.value.shown| <= PageSize && SortedByName(r.value.shown)
    ensures r.Some? ==> forall e :: e in r.value.shown ==> Offered(rs, search, e)
    ensures r.Some? ==> r.value.totalPages == TotalPages(|Listed(rs, search).value|)
    ensures r.Some? ==> r.value.totalPages == TotalPages(|OfferedIds(rs, search)|)
    ensures r.Some? ==> DistinctRids(r.value.shown)
    ensures r.Some? ==> (r.value.prev.Some? <==> page > 0) && (page > 0 ==> r.value.prev == Some(page - 1))
    ensures r.Some? ==> (r.value.next.Some? <==> page + 1 < r.value.totalPages) &&
                        (page + 1 < r.value.totalPages ==> r.value.next == Some(page + 1))
    ensures r.Some? ==> r.value == PageOf(Listed(rs, search).value, page)
  {
    match Listed(rs, search)
    case None => None
    case Some(sorted) =>
      ListedCountsOffered(rs, search);
      Some(PageOf(sorted, page))
  }

  lemma NamedEntriesMembers(keys: seq<string>, rs: map<string, Dict>)
    requires forall k :: k in keys ==> k in rs
    requires NamedEntries(keys, rs).Some?
    ensures forall e :: e in NamedEntries(keys, rs).value <==>
              e.rid in keys && Get(rs[e.rid], "name") == Str(e.name)
    ensures (forall i, j :: 0 <= i < j < |keys| ==> keys[i] != keys[j]) ==> DistinctRids(NamedEntries(keys, rs).value)
  {
    var es := NamedEntries(keys, rs).value;
    forall e: Entry | e.rid in keys && Get(rs[e.rid], "name") == Str(e.name)
      ensures e in es
    {
      var i :| 0 <= i < |keys| && keys[i] == e.rid;
      assert es[i] == e;
    }
  }

  lemma SortedMembers(es: seq<Entry>)
    ensures forall e :: e in SortByName(es) <==> e in es
    ensures DistinctRids(es) ==> DistinctRids(SortByName(es))
  {
    forall e
      ensures e in SortByName(es) <==> e in es
    {
      assert e in SortByName(es) <==> e in multiset(SortByName(es));
      assert e in es <==> e in multiset(es);
    }
    if DistinctRids(es) {
      PermutationDistinct(SortByName(es), es);
    }
  }

  /** No restaurant is listed twice. */
  predicate DistinctRids(s: seq<Entry>)
  {
    forall i, j :: 0 <= i < j < |s| ==> s[i].rid != s[j].rid
  }

  /** The entries after the first of a list without repeated ids have no repeated ids. */
  lemma TailDistinct(s: seq<Entry>)
    requires s != [] && DistinctRids(s)
    ensures DistinctRids(s[1..])
    ensures forall e :: e in s[1..] ==> e.rid != s[0].rid
  {
    var t := s[1..];
    forall i, j | 0 <= i < j < |t|
      ensures t[i].rid != t[j].rid
    {
      assert t[i] == s[i + 1] && t[j] == s[j + 1];
    }
    forall e | e in t
      ensures e.rid != s[0].rid
    {
      var k :| 0 <= k < |t| && t[k] == e;
      assert s[k + 1] == e;
    }
  }

  /** Filtering by the search keeps the ids distinct. */
  lemma {:induction false} MatchingDistinct(es: seq<Entry>, query: string)
    requires DistinctRids(es)
    ensures DistinctRids(Matching(es, query))
    decreases |es|
  {
    if es != [] {
      var t := es[1..];
      TailDistinct(es);
      MatchingDistinct(t, query);
      var m := Matching(t, query);
      if Contains(Lower(es[0].name), Lower(query)) {
        var r := [es[0]] + m;
        forall i, j | 0 <= i < j < |r|
          ensures r[i].rid != r[j].rid
        {
          assert r[j] == m[j - 1] && m[j - 1] in t;
          if i > 0 {
            assert r[i] == m[i - 1];
          }
        }
      }
    }
  }

  /** An entry that occurs at two positions occurs at least twice. */
  lemma TwiceCounted(a: seq<Entry>, i: nat, j: nat)
    requires i < j < |a|
    ensures a[i] == a[j] ==> multiset(a)[a[i]] >= 2
  {
    var pre, post := a[..j], a[j..];
    assert a == pre + post;
    assert pre[i] == a[i] && post[0] == a[j];
    assert multiset(a)[a[j]] == multiset(pre)[a[j]] + multiset(post)[a[j]];
  }

  /** In a list without repeated ids every entry occurs at most once. */
  lemma {:induction false} DistinctCounts(s: seq<Entry>)
    requires DistinctRids(s)
    ensures forall x :: multiset(s)[x] <= 1
    decreases |s|
  {
    if s != [] {
      var t := s[1..];
      TailDistinct(s);
      DistinctCounts(t);
      assert s == [s[0]] + t;
      assert s[0] !in multiset(t);
    }
  }

  /** A reordering of a list without repeated ids has none either. */
  lemma PermutationDistinct(a: seq<Entry>, b: seq<Entry>)
    requires multiset(a) == multiset(b) && DistinctRids(b)
    ensures DistinctRids(a)
  {
    DistinctCounts(b);
    forall i, j | 0 <= i < j < |a|
      ensures a[i].rid != a[j].rid
    {
      TwiceCounted(a, i, j);
      assert a[i] != a[j];
      assert a[i] in multiset(b) && a[j] in multiset(b);
      var p :| 0 <= p < |b| && b[p] == a[i];
      var q :| 0 <= q < |b| && b[q] == a[j];
      assert p != q;
    }
  }

  /** The ids of a list of entries. */
  function Rids(s: seq<Entry>): set<string>
  {
    set e | e in s :: e.rid
  }

  /** A list without repeated ids has as many entries as ids. */
  lemma {:induction false} DistinctCount(s: seq<Entry>)
    requires DistinctRids(s)
    ensures |Rids(s)| == |s|
    decreases |s|
  {
    if s != [] {
      var t := s[1..];
      TailDistinct(s);
      DistinctCount(t);
      assert s == [s[0]] + t;
      assert Rids(s) == {s[0].rid} + Rids(t);
      assert s[0].rid !in Rids(t);
    }
  }

  /**
   * The restaurant at position i of the list appears on page i / 10, at
   * slot i % 10, and that page exists; so the pages together show every
   * listed restaurant.
   */
  lemma EveryEntryOnItsPage(sorted: seq<Entry>, i: nat)
    requires i < |sorted|
    ensures i / PageSize < PageOf(sorted, i / PageSize).totalPages
    ensures i % PageSize < |PageOf(sorted, i / PageSize).shown|
    ensures PageOf(sorted, i / PageSize).shown[i % PageSize] == sorted[i]
  {
    var n := |sorted|;
    var pg := i / PageSize;
    assert pg * 10 <= i < pg * 10 + 10;
    var start := Min(pg * PageSize, n);
    var end := Min(pg * PageSize + PageSize, n);
    assert start == pg * 10 && start <= i < end;
    var p := PageOf(sorted, pg);
    assert p.shown == sorted[start..end];
    assert pg < p.totalPages by {
      assert n <= p.totalPages * 10;
    }
    assert p.shown[i - start] == sorted[i];
  }

  /** What a search replies with: nothing found, up to ten hits, or an exception. */
  datatype Outcome<T> = Raises | NoHits | Hits(hits: seq<T>)

  /** r.get(k, ""): the string stored, "" when absent, None when lower() would raise. */
  function TextOr(d: Dict, k: string): Option<string>
  {
    match Get(d, k)
    case Null => Some("")
    case Str(s) => Some(s)
    case _ => None
  }

  /** Distinct keys in ascending order. */
  predicate StrictlyAscending(ks: seq<string>)
  {
    forall i, j :: 0 <= i < j < |ks| ==> ks[i] != ks[j] && StrLe(ks[i], ks[j])
  }

  /** r.get("name", "").lower() contains the lowered query (false when the name is not text). */
  predicate NameHas(d: Dict, query: string)
  {
    TextOr(d, "name").Some? && Contains(Lower(TextOr(d, "name").value), Lower(query))
  }

  /**
   * The ids of the restaurants whose lowered name contains the lowered
   * query, in the order of keys. None when a name is neither absent nor
   * text (lower() raises).
   */
  function RestaurantMatches(keys: seq<string>, rs: map<string, Dict>, query: string): (r: Option<seq<string>>)
    requires forall k :: k in keys ==> k in rs
    ensures r.Some? <==> forall k :: k in keys ==> TextOr(rs[k], "name").Some?
    ensures r.Some? ==> forall k :: k in r.value <==> k in keys && NameHas(rs[k], query)
    ensures r.Some? && StrictlyAscending(keys) ==> StrictlyAscending(r.value)
    decreases |keys|
  {
    if keys == [] then Some([])
    else match TextOr(rs[keys[0]], "name")
      case None => None
      case Some(n) =>
        match RestaurantMatches(keys[1..], rs, query)
        case None => None
        case Some(rest) =>
          FilterAscending(keys, rest);
          Some((if Contains(Lower(n), Lower(query)) then [keys[0]] else []) + rest)
  }

  /** Filtering ascending keys keeps them ascending, and the first key stays in front. */
  lemma FilterAscending(keys: seq<string>, rest: seq<string>)
    requires keys != []
    requires forall k :: k in rest ==> k in keys[1..]
    requires StrictlyAscending(keys[1..]) ==> StrictlyAscending(rest)
    ensures StrictlyAscending(keys) ==> StrictlyAscending(rest) && StrictlyAscending([keys[0]] + rest)
  {
    if StrictlyAscending(keys) {
      var tail := keys[1..];
      assert StrictlyAscending(tail) by {
        forall i, j | 0 <= i < j < |tail|
          ensures tail[i] != tail[j] && StrLe(tail[i], tail[j])
        {
          assert tail[i] == keys[i + 1] && tail[j] == keys[j + 1];
        }
      }
      var r := [keys[0]] + rest;
      forall i, j | 0 <= i < j < |r|
        ensures r[i] != r[j] && StrLe(r[i], r[j])
      {
        if i == 0 {
          assert r[j] == rest[j - 1] && rest[j - 1] in rest;
          var p :| 0 <= p < |tail| && tail[p] == r[j];
          assert keys[p + 1] == r[j];
        } else {
          assert r[i] == rest[i - 1] && r[j] == rest[j - 1];
        }
      }
    }
  }

  /** A restaurant search hit: the id and the displayed name. */
  datatype RestaurantHit = RestaurantHit(rid: string, name: Value)

  function Take<T>(s: seq<T>, n: nat): (r: seq<T>)
    ensures |r| == Min(|s|, n) && r == s[..Min(|s|, n)]
    ensures forall i :: 0 <= i < |r| ==> r[i] == s[i]
  {
    if |s| <= n then s else s[..n]
  }

  /** The first n elements are elements. */
  lemma TakeMembers<T>(s: seq<T>, n: nat)
    ensures forall x :: x in Take(s, n) ==> x in s
  {
    forall x | x in Take(s, n)
      ensures x in s
    {
      var j :| 0 <= j < |Take(s, n)| && Take(s, n)[j] == x;
      assert s[j] == x;
    }
  }

  /** The hits for the given ids, showing r['name']; None when one of them has no name. */
  function ShowRestaurants(ids: seq<string>, rs: map<string, Dict>): (r: Option<seq<RestaurantHit>>)
    requires forall k :: k in ids ==> k in rs
    ensures r.None? <==> exists i :: 0 <= i < |ids| && "name" !in rs[ids[i]]
    ensures r.Some? ==> |r.value| == |ids|
    ensures r.Some? ==> forall i :: 0 <= i < |ids| ==>
              "name" in rs[ids[i]] && r.value[i] == RestaurantHit(ids[i], rs[ids[i]]["name"])
    decreases |ids|
  {
    if ids == [] then Some([])
    else if "name" !in rs[ids[0]] then None
    else
      var tail := ids[1..];
      match ShowRestaurants(tail, rs)
      case None => NamelessInTail(ids, rs); None
      case Some(rest) => Some([RestaurantHit(ids[0], rs[ids[0]]["name"])] + rest)
  }

  lemma NamelessInTail(ids: seq<string>, rs: map<string, Dict>)
    requires ids != [] && forall k :: k in ids ==> k in rs
    requires exists i :: 0 <= i < |ids[1..]| && "name" !in rs[ids[1..][i]]
    ensures exists i :: 0 <= i < |ids| && "name" !in rs[ids[i]]
  {
    var tail := ids[1..];
    var i :| 0 <= i < |tail| && "name" !in rs[tail[i]];
    assert ids[i + 1] == tail[i];
  }

  /**
   * handle_search_restaurant_query: up to ten buttons for the first
   * matches in key order, "No restaurants found." when nothing matches.
   * Showing a hit reads r['name'], which raises when a restaurant matched
   * without a name.
   */
  /** The matching ids of all stored restaurants, in key order. */
  function Matches(rs: map<string, Dict>, query: string): (r: Option<seq<string>>)
    ensures r.Some? <==> forall k :: k in rs ==> TextOr(rs[k], "name").Some?
    ensures r.Some? ==> forall k :: k in r.value <==> k in rs && NameHas(rs[k], query)
    ensures r.Some? ==> StrictlyAscending(r.value)
  {
    RestaurantMatches(SortedKeys(rs), rs, query)
  }

  function SearchRestaurants(rs: map<string, Dict>, query: string): (r: Outcome<RestaurantHit>)
    ensures r.Raises? <==>
              (Matches(rs, query).None? ||
               exists i :: 0 <= i < Min(|Matches(rs, query).value|, 10) && "name" !in rs[Matches(rs, query).value[i]])
    ensures r.NoHits? <==> Matches(rs, query) == Some([])
    ensures r.Hits? ==> |r.hits| == Min(|Matches(rs, query).value|, 10)
    ensures r.Hits? ==> forall i :: 0 <= i < |r.hits| ==>
              var k := Matches(rs, query).value[i];
              "name" in rs[k] && r.hits[i] == RestaurantHit(k, rs[k]["name"])
    ensures r.Hits? ==> 1 <= |r.hits| <= 10
  {
    match Matches(rs, query)
    case None => Raises
    case Some(ids) =>
      if ids == [] then NoHits
      else
        ShownHits(ids, rs);
        match ShowRestaurants(Take(ids, 10), rs)
        case None => Raises
        case Some(hits) => Hits(hits)
  }

  /** The buttons for the first ten ids, stated on the ids themselves. */
  lemma ShownHits(ids: seq<string>, rs: map<string, Dict>)
    requires forall k :: k in ids ==> k in rs
    ensures forall k :: k in Take(ids, 10) ==> k in rs
    ensures ShowRestaurants(Take(ids, 10), rs).None? <==>
              exists i :: 0 <= i < Min(|ids|, 10) && "name" !in rs[ids[i]]
    ensures ShowRestaurants(Take(ids, 10), rs).Some? ==>
              var hits := ShowRestaurants(Take(ids, 10), rs).value;
              |hits| == Min(|ids|, 10) &&
              forall i :: 0 <= i < |hits| ==> "name" in rs[ids[i]] && hits[i] == RestaurantHit(ids[i], rs[ids[i]]["name"])
  {
    TakeMembers(ids, 10);
  }

  /** Nothing found means no stored restaurant's name contains the query. */
  lemma NoHitsMeansNoMatch(rs: map<string, Dict>, query: string)
    requires SearchRestaurants(rs, query).NoHits?
    ensures forall k :: k in rs ==> !NameHas(rs[k], query)
  {

  }

  /** Every hit is a stored restaurant whose lowered name contains the lowered query. */
  lemma SearchRestaurantsSound(rs: map<string, Dict>, query: string)
    requires SearchRestaurants(rs, query).Hits?
    ensures forall h :: h in SearchRestaurants(rs, query).hits ==> h.rid in rs && NameHas(rs[h.rid], query)
  {
    var ids := Matches(rs, query).value;
    var hits := SearchRestaurants(rs, query).hits;
    forall h | h in hits
      ensures h.rid in rs && NameHas(rs[h.rid], query)
    {
      var i :| 0 <= i < |hits| && hits[i] == h;
      assert ids[i] in ids;
    }
  }

  /**
   * The hits are the first matches in key order: a match beyond the first
   * ten (the ones SearchRestaurants shows) comes after each of them.
   */
  lemma UnshownMatchesComeLater(rs: map<string, Dict>, query: string, k: string)
    requires Matches(rs, query).Some? && k in Matches(rs, query).value
    requires k !in Take(Matches(rs, query).value, 10)
    ensures |Matches(rs, query).value| > 10
    ensures forall i :: 0 <= i < 10 ==> StrLe(Matches(rs, query).value[i], k)
  {
    var ids := Matches(rs, query).value;
    var p :| 0 <= p < |ids| && ids[p] == k;
  }

  /** What iterating a value yields, as `for x in v` does in the code; None when it raises. */
  function IterateAsWritten(v: Value): (r: Option<seq<Value>>)
    ensures v.Null? ==> r == Some([])
    ensures v.Arr? ==> r == Some(v.items)
    ensures v.Obj? ==> r.Some? && |r.value| == |v.fields| &&
                       forall x :: x in r.value <==> x.Str? && x.s in v.fields
    ensures v.Str? ==> r.Some? && |r.value| == |v.s| &&
                       forall i :: 0 <= i < |v.s| ==> r.value[i] == Str([v.s[i]])
    ensures v.Bool? || v.Int? || v.Num? ==> r.None?
  {
    match v
    case Null => Some([])
    case Arr(xs) => Some(xs)
    case Obj(m) =>
      var xs := seq(|SortedKeys(m)|, i requires 0 <= i < |SortedKeys(m)| => Str(SortedKeys(m)[i]));
      KeyStrings(m, xs);
      Some(xs)
    case Str(s) => Some(seq(|s|, i requires 0 <= i < |s| => Str([s[i]])))
    case _ => None
  }

  /** The keys in order, as strings, are exactly the record's keys. */
  lemma KeyStrings(m: map<string, Value>, xs: seq<Value>)
    requires |xs| == |SortedKeys(m)| && forall i :: 0 <= i < |xs| ==> xs[i] == Str(SortedKeys(m)[i])
    ensures forall x :: x in xs <==> x.Str? && x.s in m
  {
    var ks := SortedKeys(m);
    forall x: Value | x.Str? && x.s in m
      ensures x in xs
    {
      var i :| 0 <= i < |ks| && ks[i] == x.s;
      assert xs[i] == x;
    }
  }

  /**
   * The dishes of a restaurant, as evidently intended: a list is read item
   * by item and a keyed record (which a dish written under foods/<id>
   * creates) child by child in key order.
   */
  function Dishes(v: Value): (r: Option<seq<Value>>)
    ensures !v.Obj? ==> r == IterateAsWritten(v)
    ensures v.Obj? ==> r.Some? && |r.value| == |v.fields| &&
                       forall i :: 0 <= i < |r.value| ==> r.value[i] == v.fields[SortedKeys(v.fields)[i]]
    ensures v.Obj? ==> forall x :: x in r.value ==> x in v.fields.Values
  {
    match v
    case Obj(m) =>
      var ks := SortedKeys(m);
      Some(seq(|ks|, i requires 0 <= i < |ks| => m[ks[i]]))
    case _ => IterateAsWritten(v)
  }

  /** One restaurant's scan of its dishes: the first whose lowered name contains the query. */
  datatype Scan = ScanRaises | NoMatch | Match(food: Dict)

  /** The loop moves past x: a record whose name is text not containing q. */
  predicate Passes(x: Value, q: string)
  {
    x.Obj? && TextOr(x.fields, "name").Some? && !Contains(Lower(TextOr(x.fields, "name").value), q)
  }

  /** x is a record whose lowered name (absent: "") contains q. */
  predicate DishHas(x: Value, q: string)
  {
    x.Obj? && TextOr(x.fields, "name").Some? && Contains(Lower(TextOr(x.fields, "name").value), q)
  }

  /** Where the inner loop stops: the first dish it does not move past, |items| when there is none. */
  function StopAt(items: seq<Value>, q: string): (i: nat)
    ensures i <= |items|
    ensures forall j :: 0 <= j < i ==> Passes(items[j], q)
    ensures i < |items| ==> !Passes(items[i], q)
    decreases |items|
  {
    if items == [] || !Passes(items[0], q) then 0
    else StopAt(items[1..], q) + 1
  }

  /**
   * The inner loop over one restaurant's dishes: the first dish whose
   * lowered name contains the query, NoMatch when every dish is a named
   * record that does not match, ScanRaises when it reaches a dish that is
   * not a record or whose name is not text.
   */
  function FirstMatch(items: seq<Value>, query: string): (r: Scan)
    ensures r.NoMatch? <==> StopAt(items, query) == |items|
    ensures r.Match? <==> StopAt(items, query) < |items| && DishHas(items[StopAt(items, query)], query)
    ensures r.Match? ==> items[StopAt(items, query)] == Obj(r.food)
    ensures r.Match? ==> Obj(r.food) in items && DishHas(Obj(r.food), query)
    decreases |items|
  {
    if items == [] then NoMatch
    else if !items[0].Obj? then ScanRaises   // f.get on a non-record raises
    else match TextOr(items[0].fields, "name")
      case None => ScanRaises
      case Some(n) =>
        if Contains(Lower(n), query) then Match(items[0].fields)
        else match FirstMatch(items[1..], query)
          case Match(f) => Match(f)
          case other => other
  }

  /** A food search hit: the restaurant and the first matching dish. */
  datatype FoodHit = FoodHit(rid: string, rest: Dict, food: Dict)

  /** The scan of one restaurant, reading its dishes with iterate. */
  function ScanRestaurant(r: Dict, query: string, iterate: Value -> Option<seq<Value>>): Scan
  {
    match iterate(Get(r, "foods"))
    case None => ScanRaises
    case Some(items) => FirstMatch(items, query)
  }

  /** The hits of the restaurants with ids keys, in order: at most one per restaurant. */
  function FoodMatches(keys: seq<string>, rs: map<string, Dict>, query: string,
                       iterate: Value -> Option<seq<Value>>): (r: Option<seq<FoodHit>>)
    requires forall k :: k in keys ==> k in rs
    ensures r.Some? ==> |r.value| <= |keys|
    ensures r.Some? ==> forall i :: 0 <= i < |r.value| ==> r.value[i].rid in keys && r.value[i].rest == rs[r.value[i].rid]
    decreases |keys|
  {
    if keys == [] then Some([])
    else match ScanRestaurant(rs[keys[0]], query, iterate)
      case ScanRaises => None
      case NoMatch => FoodMatches(keys[1..], rs, query, iterate)
      case Match(f) =>
        match FoodMatches(keys[1..], rs, query, iterate)
        case None => None
        case Some(rest) => Some([FoodHit(keys[0], rs[keys[0]], f)] + rest)
  }

  /** The search raises exactly when some restaurant's scan raises. */
  lemma {:induction false} FoodMatchesRaises(keys: seq<string>, rs: map<string, Dict>, query: string,
                                             iterate: Value -> Option<seq<Value>>)
    requires forall k :: k in keys ==> k in rs
    ensures FoodMatches(keys, rs, query, iterate).None? <==>
              exists k :: k in keys && ScanRestaurant(rs[k], query, iterate).ScanRaises?
    decreases |keys|
  {
    if keys != [] {
      var tail := keys[1..];
      FoodMatchesRaises(tail, rs, query, iterate);
      assert forall k :: k in keys <==> k == keys[0] || k in tail;
    }
  }

  /** Each hit is its restaurant's first matching dish. */
  lemma {:induction false} FoodHitsMatch(keys: seq<string>, rs: map<string, Dict>, query: string,
                                         iterate: Value -> Option<seq<Value>>)
    requires forall k :: k in keys ==> k in rs
    requires FoodMatches(keys, rs, query, iterate).Some?
    ensures forall h :: h in FoodMatches(keys, rs, query, iterate).value ==>
              ScanRestaurant(rs[h.rid], query, iterate) == Match(h.food)
    decreases |keys|
  {
    if keys != [] {
      var tail := keys[1..];
      if FoodMatches(tail, rs, query, iterate).Some? {
        FoodHitsMatch(tail, rs, query, iterate);
      }
    }
  }

  /** Every restaurant with a matching dish has a hit. */
  lemma {:induction false} FoodHitsComplete(keys: seq<string>, rs: map<string, Dict>, query: string,
                                            iterate: Value -> Option<seq<Value>>, k: string)
    requires forall k :: k in keys ==> k in rs
    requires FoodMatches(keys, rs, query, iterate).Some?
    requires k in keys && ScanRestaurant(rs[k], query, iterate).Match?
    ensures exists h :: h in FoodMatches(keys, rs, query, iterate).value && h.rid == k
    decreases |keys|
  {
    var tail := keys[1..];
    var hits := FoodMatches(keys, rs, query, iterate).value;
    if k == keys[0] {
      assert hits[0].rid == k;
    } else {
      FoodHitsComplete(tail, rs, query, iterate, k);
      var h :| h in FoodMatches(tail, rs, query, iterate).value && h.rid == k;
      assert h in hits;
    }
  }

  /** A restaurant contributes at most one hit: hits come from distinct restaurants. */
  lemma {:induction false} OneHitPerRestaurant(keys: seq<string>, rs: map<string, Dict>, query: string,
                                               iterate: Value -> Option<seq<Value>>)
    requires forall k :: k in keys ==> k in rs
    requires forall i, j :: 0 <= i < j < |keys| ==> keys[i] != keys[j]
    requires FoodMatches(keys, rs, query, iterate).Some?
    ensures forall i, j :: 0 <= i < j < |FoodMatches(keys, rs, query, iterate).value| ==>
              FoodMatches(keys, rs, query, iterate).value[i].rid != FoodMatches(keys, rs, query, iterate).value[j].rid
    decreases |keys|
  {
    if keys != [] {
      var tail := keys[1..];
      OneHitPerRestaurant(tail, rs, query, iterate);
      var hits := FoodMatches(keys, rs, query, iterate).value;
      if ScanRestaurant(rs[keys[0]], query, iterate).Match? {
        var rest := FoodMatches(tail, rs, query, iterate).value;
        forall j | 0 <= j < |rest|
          ensures rest[j].rid != keys[0]
        {
          var k :| 0 <= k < |tail| && tail[k] == rest[j].rid;
          assert keys[k + 1] == tail[k];
        }
        assert hits == [hits[0]] + rest;
      }
    }
  }

  /** The inner loop of handle_search_food_query over one restaurant's dishes, with its break. */
  method ScanLoop(items: seq<Value>, q: string) returns (r: Scan)
    ensures r == FirstMatch(items, q)
  {
    var j := 0;
    while j < |items|
      invariant 0 <= j <= |items|
      invariant FirstMatch(items, q) == FirstMatch(items[j..], q)
      decreases |items| - j
    {
      var f := items[j];
      if !f.Obj? {
        return ScanRaises;
      }
      var n := TextOr(f.fields, "name");
      if n.None? {
        return ScanRaises;
      }
      if Contains(Lower(n.value), q) {
        return Match(f.fields);
      }
      assert items[j..][1..] == items[j + 1..];
      j := j + 1;
    }
    return NoMatch;
  }

  function Prefixed(prefix: seq<FoodHit>, o: Option<seq<FoodHit>>): Option<seq<FoodHit>>
  {
    if o.None? then None else Some(prefix + o.value)
  }

  lemma FoodMatchesStep(keys: seq<string>, i: nat, rs: map<string, Dict>, q: string,
                        iterate: Value -> Option<seq<Value>>)
    requires forall k :: k in keys ==> k in rs
    requires i < |keys|
    ensures FoodMatches(keys[i..], rs, q, iterate) ==
            match ScanRestaurant(rs[keys[i]], q, iterate)
            case ScanRaises => None
            case NoMatch => FoodMatches(keys[i + 1..], rs, q, iterate)
            case Match(f) => Prefixed([FoodHit(keys[i], rs[keys[i]], f)], FoodMatches(keys[i + 1..], rs, q, iterate))
  {
    assert keys[i..][0] == keys[i];
    assert keys[i..][1..] == keys[i + 1..];
  }

  lemma PrefixedAppend(prefix: seq<FoodHit>, hit: FoodHit, o: Option<seq<FoodHit>>)
    ensures Prefixed(prefix, Prefixed([hit], o)) == Prefixed(prefix + [hit], o)
  {
    if o.Some? {
      assert prefix + ([hit] + o.value) == (prefix + [hit]) + o.value;
    }
  }

  /** What one turn of CollectHits' loop leaves: the hits so far and the restaurants still to scan. */
  lemma CollectTurn(keys: seq<string>, i: nat, rs: map<string, Dict>, q: string,
                    iterate: Value -> Option<seq<Value>>, results: seq<FoodHit>)
    requires forall k :: k in keys ==> k in rs
    requires i < |keys|
    requires FoodMatches(keys, rs, q, iterate) == Prefixed(results, FoodMatches(keys[i..], rs, q, iterate))
    ensures ScanRestaurant(rs[keys[i]], q, iterate).ScanRaises? ==> FoodMatches(keys, rs, q, iterate) == None
    ensures ScanRestaurant(rs[keys[i]], q, iterate).NoMatch? ==>
              FoodMatches(keys, rs, q, iterate) == Prefixed(results, FoodMatches(keys[i + 1..], rs, q, iterate))
    ensures ScanRestaurant(rs[keys[i]], q, iterate).Match? ==>
              FoodMatches(keys, rs, q, iterate) ==
              Prefixed(results + [FoodHit(keys[i], rs[keys[i]], ScanRestaurant(rs[keys[i]], q, iterate).food)],
                       FoodMatches(keys[i + 1..], rs, q, iterate))
  {
    FoodMatchesStep(keys, i, rs, q, iterate);
    var scan := ScanRestaurant(rs[keys[i]], q, iterate);
    if scan.Match? {
      PrefixedAppend(results, FoodHit(keys[i], rs[keys[i]], scan.food), FoodMatches(keys[i + 1..], rs, q, iterate));
    }
  }

  /** One restaurant's turn in the outer loop: its dishes read, then scanned. */
  method ScanOne(r0: Dict, q: string, iterate: Value -> Option<seq<Value>>) returns (scan: Scan)
    ensures scan == ScanRestaurant(r0, q, iterate)
  {
    var items := iterate(Get(r0, "foods"));
    if items.None? {
      return ScanRaises;
    }
    scan := ScanLoop(items.value, q);
  }

  /** The outer loop of handle_search_food_query over the restaurants, in the given order. */
  method CollectHits(keys: seq<string>, rs: map<string, Dict>, q: string, iterate: Value -> Option<seq<Value>>)
    returns (r: Option<seq<FoodHit>>)
    requires forall k :: k in keys ==> k in rs
    ensures r == FoodMatches(keys, rs, q, iterate)
  {
    var results: seq<FoodHit> := [];
    var i := 0;
    assert keys[0..] == keys;
    assert FoodMatches(keys, rs, q, iterate).Some? ==> [] + FoodMatches(keys, rs, q, iterate).value == FoodMatches(keys, rs, q, iterate).value;
    while i < |keys|
      invariant 0 <= i <= |keys|
      invariant FoodMatches(keys, rs, q, iterate) == Prefixed(results, FoodMatches(keys[i..], rs, q, iterate))
      decreases |keys| - i
    {
      var r0 := rs[keys[i]];
      var scan := ScanOne(r0, q, iterate);
      CollectTurn(keys, i, rs, q, iterate, results);
      if scan.ScanRaises? {
        return None;
      }
      if scan.Match? {
        results := results + [FoodHit(keys[i], r0, scan.food)];
      }
      i := i + 1;
    }
    assert keys[i..] == [];
    assert results + [] == results;
    r := Some(results);
  }

  /** handle_search_food_query's loops, before the hits are shown. */
  method SearchFoodLoop(rs: map<string, Dict>, query: string, iterate: Value -> Option<seq<Value>>)
    returns (r: Option<seq<FoodHit>>)
    ensures r == FoodMatches(SortedKeys(rs), rs, Lower(query), iterate)
  {
    r := CollectHits(SortedKeys(rs), rs, Lower(query), iterate);
  }

  /**
   * Showing the first ten hits reads r['name'] and f['name'], which raise
   * for a hit without them.
   */
  function Shown(hits: Option<seq<FoodHit>>): (r: Outcome<FoodHit>)
    ensures r.Hits? ==> hits.Some? && r.hits == Take(hits.value, 10) && 1 <= |r.hits| <= 10
    ensures r.NoHits? <==> hits == Some([])
    ensures r.Raises? <==> hits.None? || exists h :: h in Take(hits.value, 10) && Nameless(h)
  {
    match hits
    case None => Raises
    case Some(hs) =>
      if hs == [] then NoHits
      else
        var shown := Take(hs, 10);
        if exists h :: h in shown && Nameless(h) then Raises
        else Hits(shown)
  }

  /** A hit whose button cannot be labelled: r['name'] or f['name'] raises. */
  predicate Nameless(h: FoodHit)
  {
    "name" !in h.rest || "name" !in h.food
  }

  /** No restaurant has two hits. */
  predicate DistinctHits(hs: seq<FoodHit>)
  {
    forall i, j :: 0 <= i < j < |hs| ==> hs[i].rid != hs[j].rid
  }

  /** The hits of the scan over the stored restaurants in key order. */
  function HitsInKeyOrder(rs: map<string, Dict>, query: string, iterate: Value -> Option<seq<Value>>): Option<seq<FoodHit>>
  {
    FoodMatches(SortedKeys(rs), rs, Lower(query), iterate)
  }

  /**
   * The food search with the dishes read by iterate: "No matches." exactly
   * when every restaurant's scan ends without a match, and otherwise hits
   * that are each a stored restaurant's first matching dish.
   */
  lemma SearchOutcome(rs: map<string, Dict>, query: string, iterate: Value -> Option<seq<Value>>)
    ensures var r := Shown(HitsInKeyOrder(rs, query, iterate));
            (r.NoHits? <==> forall k :: k in rs ==> ScanRestaurant(rs[k], Lower(query), iterate).NoMatch?) &&
            (r.Hits? ==> forall h :: h in r.hits ==>
               h.rid in rs && h.rest == rs[h.rid] && ScanRestaurant(rs[h.rid], Lower(query), iterate) == Match(h.food))
  {
    var keys := SortedKeys(rs);
    var q := Lower(query);
    var m := FoodMatches(keys, rs, q, iterate);
    if m.Some? {
      FoodHitsMatch(keys, rs, q, iterate);
      TakeMembers(m.value, 10);
      if m.value == [] {
        forall k | k in rs
          ensures ScanRestaurant(rs[k], q, iterate).NoMatch?
        {
          if ScanRestaurant(rs[k], q, iterate).Match? {
            FoodHitsComplete(keys, rs, q, iterate, k);
          } else if ScanRestaurant(rs[k], q, iterate).ScanRaises? {
            FoodMatchesRaises(keys, rs, q, iterate);
          }
        }
      } else {
        assert m.value[0] in m.value;
      }
    } else {
      FoodMatchesRaises(keys, rs, q, iterate);
    }
  }

  /**
   * The food search raises exactly when a scan raises or one of the hits
   * shown has no name; what it shows is the first ten hits of the scan in
   * key order, from distinct restaurants.
   */
  lemma SearchShowsFirstTen(rs: map<string, Dict>, query: string, iterate: Value -> Option<seq<Value>>)
    ensures var r := Shown(HitsInKeyOrder(rs, query, iterate));
            (r.Raises? <==> (exists k :: k in rs && ScanRestaurant(rs[k], Lower(query), iterate).ScanRaises?) ||
                            (HitsInKeyOrder(rs, query, iterate).Some? && exists h :: h in Take(HitsInKeyOrder(rs, query, iterate).value, 10) && Nameless(h))) &&
            (r.Hits? ==> HitsInKeyOrder(rs, query, iterate).Some? && r.hits == Take(HitsInKeyOrder(rs, query, iterate).value, 10) && DistinctHits(r.hits))
  {
    var keys := SortedKeys(rs);
    var q := Lower(query);
    var m := FoodMatches(keys, rs, q, iterate);
    FoodMatchesRaises(keys, rs, q, iterate);
    if m.Some? {
      OneHitPerRestaurant(keys, rs, q, iterate);
      var t := Take(m.value, 10);
      forall i, j | 0 <= i < j < |t|
        ensures t[i].rid != t[j].rid
      {
        assert t[i] == m.value[i] && t[j] == m.value[j];
      }
    }
  }

  /** handle_search_food_query as written: a keyed dish record is iterated by its keys. */
  function SearchFoodsAsWritten(rs: map<string, Dict>, query: string): (r: Outcome<FoodHit>)
    ensures r.NoHits? <==> forall k :: k in rs ==> ScanRestaurant(rs[k], Lower(query), IterateAsWritten).NoMatch?
    ensures r.Raises? <==> (exists k :: k in rs && ScanRestaurant(rs[k], Lower(query), IterateAsWritten).ScanRaises?) ||
                           (HitsInKeyOrder(rs, query, IterateAsWritten).Some? && exists h :: h in Take(HitsInKeyOrder(rs, query, IterateAsWritten).value, 10) && Nameless(h))
    ensures r.Hits? ==> HitsInKeyOrder(rs, query, IterateAsWritten).Some? && r.hits == Take(HitsInKeyOrder(rs, query, IterateAsWritten).value, 10) && DistinctHits(r.hits)
    ensures r.Hits? ==> 1 <= |r.hits| <= 10 && forall h :: h in r.hits ==>
              h.rid in rs && h.rest == rs[h.rid] && ScanRestaurant(rs[h.rid], Lower(query), IterateAsWritten) == Match(h.food)
  {
    SearchOutcome(rs, query, IterateAsWritten);
    SearchShowsFirstTen(rs, query, IterateAsWritten);
    Shown(HitsInKeyOrder(rs, query, IterateAsWritten))
  }

  /** handle_search_food_query as evidently intended: every dish is looked at. */
  function SearchFoods(rs: map<string, Dict>, query: string): (r: Outcome<FoodHit>)
    ensures r.NoHits? <==> forall k :: k in rs ==> ScanRestaurant(rs[k], Lower(query), Dishes).NoMatch?
    ensures r.Raises? <==> (exists k :: k in rs && ScanRestaurant(rs[k], Lower(query), Dishes).ScanRaises?) ||
                           (HitsInKeyOrder(rs, query, Dishes).Some? && exists h :: h in Take(HitsInKeyOrder(rs, query, Dishes).value, 10) && Nameless(h))
    ensures r.Hits? ==> HitsInKeyOrder(rs, query, Dishes).Some? && r.hits == Take(HitsInKeyOrder(rs, query, Dishes).value, 10) && DistinctHits(r.hits)
    ensures r.Hits? ==> 1 <= |r.hits| <= 10 && forall h :: h in r.hits ==>
              h.rid in rs && h.rest == rs[h.rid] && ScanRestaurant(rs[h.rid], Lower(query), Dishes) == Match(h.food)
  {
    SearchOutcome(rs, query, Dishes);
    SearchShowsFirstTen(rs, query, Dishes);
    Shown(HitsInKeyOrder(rs, query, Dishes))
  }

  /** A restaurant whose single dish is stored as a keyed record. */
  const Soup: Dict := map["name" := Str("soup")]

  const KeyedMenu: map<string, Dict> :=
    map["r1" := map["name" := Str("Cafe"), "foods" := Obj(map["ab12cd34" := Obj(Soup)])]]

  lemma SingletonKeys<V>(k: string, v: V)
    ensures SortedKeys(map[k := v]) == [k]
  {
    var ks := SortedKeys(map[k := v]);
    assert |ks| == 1 && ks[0] in map[k := v];
  }

  lemma LowerSoup()
    ensures Lower("soup") == "soup"
  {
    var l := Lower("soup");
    assert l[0] == 's' && l[1] == 'o' && l[2] == 'u' && l[3] == 'p';
  }

  /** The keyed dish record of KeyedMenu sorted by key: its one id. */
  lemma KeyedFoodsKeys()
    ensures SortedKeys(map["ab12cd34" := Obj(Soup)]) == ["ab12cd34"]
  {
    SingletonKeys("ab12cd34", Obj(Soup));
  }

  /** The dish record of KeyedMenu's one restaurant. */
  lemma KeyedFoods()
    ensures Get(KeyedMenu["r1"], "foods") == Obj(map["ab12cd34" := Obj(Soup)])
  {
  }

  /** Iterating the keyed record yields its key, a string, and f.get on it raises. */
  lemma KeyedScanAsWritten()
    ensures ScanRestaurant(KeyedMenu["r1"], "soup", IterateAsWritten) == ScanRaises
  {
    KeyedFoods();
    KeyedFoodsKeys();
    var it := IterateAsWritten(Obj(map["ab12cd34" := Obj(Soup)])).value;
    assert |it| == 1 && it[0] == Str("ab12cd34");
    assert FirstMatch(it, "soup") == ScanRaises;
  }

  /** Reading the keyed record child by child yields the soup. */
  lemma KeyedDishes()
    ensures Dishes(Obj(map["ab12cd34" := Obj(Soup)])) == Some([Obj(Soup)])
  {
    SingleDish("ab12cd34", Obj(Soup));
  }

  /** A record with one child holds one dish, that child. */
  lemma SingleDish(k: string, v: Value)
    ensures Dishes(Obj(map[k := v])) == Some([v])
  {
    SingletonKeys(k, v);
    var it := Dishes(Obj(map[k := v])).value;
    assert |it| == 1 && it[0] == v;
    assert it == [v];
  }

  /** The soup's name contains "soup". */
  lemma SoupMatches()
    ensures FirstMatch([Obj(Soup)], "soup") == Match(Soup)
  {
    LowerSoup();
    ContainsSelf("soup");
    assert TextOr(Soup, "name") == Some("soup");
  }

  lemma KeyedScanIntended()
    ensures ScanRestaurant(KeyedMenu["r1"], "soup", Dishes) == Match(Soup)
  {
    KeyedFoods();
    KeyedDishes();
    SoupMatches();
  }

  /** The hits of a single restaurant are its scan's match, if any. */
  lemma FoodMatchesOne(k: string, rs: map<string, Dict>, query: string, iterate: Value -> Option<seq<Value>>)
    requires k in rs
    ensures FoodMatches([k], rs, query, iterate) ==
            match ScanRestaurant(rs[k], query, iterate)
            case ScanRaises => None
            case NoMatch => Some([])
            case Match(f) => Some([FoodHit(k, rs[k], f)])
  {
    FoodMatchesStep([k], 0, rs, query, iterate);
    assert [k][0..] == [k] && [k][1..] == [];
    assert FoodMatches([], rs, query, iterate) == Some([]);
    var scan := ScanRestaurant(rs[k], query, iterate);
    if scan.Match? {
      var hit := FoodHit(k, rs[k], scan.food);
      assert [hit] + [] == [hit];
    }
  }

  lemma KeyedMenuAsWritten()
    ensures FoodMatches(["r1"], KeyedMenu, "soup", IterateAsWritten) == None
  {
    KeyedScanAsWritten();
    FoodMatchesOne("r1", KeyedMenu, "soup", IterateAsWritten);
  }

  lemma KeyedMenuIntended()
    ensures FoodMatches(["r1"], KeyedMenu, "soup", Dishes) == Some([FoodHit("r1", KeyedMenu["r1"], Soup)])
  {
    KeyedScanIntended();
    FoodMatchesOne("r1", KeyedMenu, "soup", Dishes);
  }

  /**
   * Searching a restaurant whose dishes were added one by one under
   * foods/<id> raises as written, and finds the dish as intended.
   */
  lemma KeyedMenuSearch()
    ensures SearchFoodsAsWritten(KeyedMenu, "soup") == Raises
    ensures SearchFoods(KeyedMenu, "soup") == Hits([FoodHit("r1", KeyedMenu["r1"], Soup)])
  {
    KeyedSearchRaises();
    KeyedSearchFinds();
  }

  lemma KeyedSearchRaises()
    ensures SearchFoodsAsWritten(KeyedMenu, "soup") == Raises
  {
    LowerSoup();
    KeyedScanAsWritten();
    assert "r1" in KeyedMenu;
  }

  lemma KeyedSearchFinds()
    ensures SearchFoods(KeyedMenu, "soup") == Hits([FoodHit("r1", KeyedMenu["r1"], Soup)])
  {
    SingletonKeys("r1", KeyedMenu["r1"]);
    assert KeyedMenu == map["r1" := KeyedMenu["r1"]];
    LowerSoup();
    KeyedMenuIntended();
    var hits := [FoodHit("r1", KeyedMenu["r1"], Soup)];
    assert Take(hits, 10) == hits;
  }

  /** On list-shaped dish lists both readings agree. */
  lemma ListMenusAgree(rs: map<string, Dict>, query: string)
    requires forall k :: k in rs ==> !Get(rs[k], "foods").Obj?
    ensures SearchFoodsAsWritten(rs, query) == SearchFoods(rs, query)
  {
    var keys := SortedKeys(rs);
    FoodMatchesAgree(keys, rs, Lower(query));
  }

  lemma {:induction false} FoodMatchesAgree(keys: seq<string>, rs: map<string, Dict>, query: string)
    requires forall k :: k in keys ==> k in rs && !Get(rs[k], "foods").Obj?
    ensures FoodMatches(keys, rs, query, IterateAsWritten) == FoodMatches(keys, rs, query, Dishes)
    decreases |keys|
  {
    if keys != [] {
      FoodMatchesAgree(keys[1..], rs, query);
    }
  }
}
