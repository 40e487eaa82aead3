/**
 * The shop list (`shops.tsx`): the city choices built from the loaded shops,
 * and `calculateAndFilter`, which computes each shop's distance from the
 * user, keeps the shops within the chosen radius nearest first, and then
 * applies the search, category and city filters. `calculateDistance` is a
 * parameter (the haversine formula is floating point); detecting the
 * location, loading the shops and the 100 ms delay are not modelled.
 */
module ShopsPage {
  import opened Common
  import opened Strings
  import MockData

  /** The fixed category choices of the page. */
  const Categories: seq<string> :=
    ["all", "Grocery", "Vegetables", "Medical", "Pharmacy", "Electronics", "Bakery", "Clothing", "Fruits", "Dairy"]

  /** `shops.map((s) => s.city)`. */
  function CitiesOf(shops: seq<MockData.Shop>): (r: seq<string>)
    ensures |r| == |shops| && forall i :: 0 <= i < |shops| ==> r[i] == shops[i].city
  {
    seq(|shops|, i requires 0 <= i < |shops| => shops[i].city)
  }

  /** `uniqueCities`: `all`, then each city of the shops once, in order of first appearance. */
  function Cities(shops: seq<MockData.Shop>): (r: seq<string>)
    ensures |r| >= 1 && r[0] == "all"
    ensures NoDuplicates(r[1..])
    ensures forall c :: c in r[1..] <==> exists i :: 0 <= i < |shops| && shops[i].city == c
  {
    var d := Distinct(CitiesOf(shops));
    assert (["all"] + d)[1..] == d;
    forall c ensures c in d <==> exists i :: 0 <= i < |shops| && shops[i].city == c {
      if c in d {
        var i :| 0 <= i < |shops| && CitiesOf(shops)[i] == c;
      }
    }
    ["all"] + d
  }

  /** The city choices come in the order in which the shops first show each city. */
  lemma CitiesInOrder(shops: seq<MockData.Shop>)
    ensures var r := Cities(shops)[1..];
      forall i, j :: 0 <= i < j < |r| ==> IndexOf(CitiesOf(shops), r[i]) < IndexOf(CitiesOf(shops), r[j])
  {
    assert Cities(shops)[1..] == Distinct(CitiesOf(shops));
    DistinctOrder(CitiesOf(shops));
  }

  /** The user's detected position. */
  datatype Location = Location(latitude: real, longitude: real)

  /** A JavaScript number used as a condition: absent (`undefined`) and `0` are false. */
  predicate Truthy(x: Option<real>)
  {
    x.Some? && x.value != 0.0
  }

  /** The `map` step: a shop with truthy coordinates gets its distance; any other keeps the one it had. */
  function WithDistance(shop: MockData.Shop, user: Location, distance: (real, real, real, real) -> real): (r: MockData.Shop)
    ensures r == shop.(distance := r.distance)
    ensures Truthy(shop.latitude) && Truthy(shop.longitude) ==>
              r.distance == Some(distance(user.latitude, user.longitude, shop.latitude.value, shop.longitude.value))
    ensures !(Truthy(shop.latitude) && Truthy(shop.longitude)) ==> r == shop
  {
    if Truthy(shop.latitude) && Truthy(shop.longitude) then
      shop.(distance := Some(distance(user.latitude, user.longitude, shop.latitude.value, shop.longitude.value)))
    else shop
  }

  function Located(shops: seq<MockData.Shop>, user: Location, distance: (real, real, real, real) -> real): (r: seq<MockData.Shop>)
    ensures |r| == |shops| && forall i :: 0 <= i < |shops| ==> r[i] == WithDistance(shops[i], user, distance)
  {
    seq(|shops|, i requires 0 <= i < |shops| => WithDistance(shops[i], user, distance))
  }

  /** The distance filter: a falsy distance drops the shop, otherwise it must be within the radius. */
  predicate Near(shop: MockData.Shop, maxDistance: real)
  {
    Truthy(shop.distance) && shop.distance.value <= maxDistance
  }

  /** The comparator `(a.distance || Infinity) - (b.distance || Infinity)` as an order: `a` may come before `b`. */
  predicate NoFarther(a: MockData.Shop, b: MockData.Shop)
  {
    !Truthy(b.distance) || (Truthy(a.distance) && a.distance.value <= b.distance.value)
  }

  /** Nearest first. */
  predicate ByDistance(s: seq<MockData.Shop>)
  {
    forall i, j :: 0 <= i < j < |s| ==> NoFarther(s[i], s[j])
  }

  /** One step of a stable insertion sort: `x` goes before the first shop it is no farther than. */
  function Insert(x: MockData.Shop, t: seq<MockData.Shop>): (r: seq<MockData.Shop>)
    ensures multiset(r) == multiset(t) + multiset{x} && |r| == |t| + 1
  {
    if t == [] || NoFarther(x, t[0]) then [x] + t
    else
      assert t == [t[0]] + t[1..];
      [t[0]] + Insert(x, t[1..])
  }

  /** Inserting into a list that is nearest first keeps it nearest first. */
  lemma {:induction false} InsertByDistance(x: MockData.Shop, t: seq<MockData.Shop>)
    requires ByDistance(t)
    ensures ByDistance(Insert(x, t))
  {
    var r := Insert(x, t);
    if t == [] || NoFarther(x, t[0]) {
      forall j | 0 < j < |r| ensures NoFarther(r[0], r[j]) {
        assert r[j] == t[j - 1];
        if j > 1 {
          assert NoFarther(t[0], t[j - 1]);
        }
      }
    } else {
      var rest := Insert(x, t[1..]);
      InsertByDistance(x, t[1..]);
      assert r == [t[0]] + rest;
      forall j | 0 < j < |r| ensures NoFarther(r[0], r[j]) {
        var y := rest[j - 1];
        assert y in multiset(rest);
        if y != x {
          assert y in t[1..];
        }
      }
    }
  }

  /** `filtered.sort(...)`: the same shops, nearest first. */
  function SortByDistance(s: seq<MockData.Shop>): (r: seq<MockData.Shop>)
    ensures ByDistance(r) && multiset(r) == multiset(s) && |r| == |s|
  {
    if s == [] then []
    else
      assert s == [s[0]] + s[1..];
      var rest := SortByDistance(s[1..]);
      InsertByDistance(s[0], rest);
      Insert(s[0], rest)
  }

  /** Filtering keeps a list nearest first. */
  lemma {:induction false} FilterByDistance(s: seq<MockData.Shop>, f: MockData.Shop -> bool)
    requires ByDistance(s)
    ensures ByDistance(Filter(s, f))
  {
    if s != [] {
      var rest := Filter(s[1..], f);
      FilterByDistance(s[1..], f);
      assert forall j :: 0 < j < |s| ==> NoFarther(s[0], s[j]);
      assert forall y :: y in rest ==> NoFarther(s[0], y);
      assert Filter(s, f) == (if f(s[0]) then [s[0]] else []) + rest;
    }
  }

  /**
   * The location step: the shops with their distances, those within
   * `maxDistance` kept, nearest first. Shops without truthy coordinates and
   * without a distance of their own are dropped.
   */
  function NearestFirst(shops: seq<MockData.Shop>, user: Location, maxDistance: real,
                        distance: (real, real, real, real) -> real): (r: seq<MockData.Shop>)
    ensures ByDistance(r) && |r| <= |shops|
    ensures forall s :: s in r <==>
              (exists i :: 0 <= i < |shops| && s == WithDistance(shops[i], user, distance)) && Near(s, maxDistance)
  {
    var located := Located(shops, user, distance);
    LocatedMembers(shops, user, distance);
    var near := Filter(located, (s: MockData.Shop) => Near(s, maxDistance));
    SortedMembers(near);
    SortByDistance(near)
  }

  lemma LocatedMembers(shops: seq<MockData.Shop>, user: Location, distance: (real, real, real, real) -> real)
    ensures forall s :: s in Located(shops, user, distance) <==>
              exists i :: 0 <= i < |shops| && s == WithDistance(shops[i], user, distance)
  {
  }

  lemma SortedMembers(s: seq<MockData.Shop>)
    ensures forall x :: x in SortByDistance(s) <==> x in s
  {
    assert forall x :: x in SortByDistance(s) <==> x in multiset(SortByDistance(s));
  }

  /** The search: the lower-cased query occurs in the lower-cased name, category, city or address. */
  predicate Mentions(shop: MockData.Shop, searchTerm: string)
  {
    Includes(ToLower(shop.shopName), searchTerm) || Includes(ToLower(shop.category), searchTerm) ||
    Includes(ToLower(shop.city), searchTerm) || Includes(ToLower(shop.address), searchTerm)
  }

  /** The three filters after the distance step; an empty query, or `all`, lets every shop through. */
  predicate Selected(shop: MockData.Shop, searchQuery: string, category: string, city: string)
  {
    (searchQuery == "" || Mentions(shop, ToLower(searchQuery))) &&
    (category == "all" || shop.category == category) &&
    (city == "all" || shop.city == city)
  }

  /** The search is case-insensitive in the query. */
  lemma SearchIgnoresQueryCase(shop: MockData.Shop, q1: string, q2: string, category: string, city: string)
    requires q1 != "" && q2 != "" && ToLower(q1) == ToLower(q2)
    ensures Selected(shop, q1, category, city) <==> Selected(shop, q2, category, city)
  {
  }

  /**
   * `calculateAndFilter`: nothing while loading or without shops. Otherwise,
   * with a location and the location filter on, the shops with their
   * distances within `maxDistance`, nearest first; then the search, category
   * and city filters, in that order. Without the location filter the shops
   * keep their loaded order.
   */
  method CalculateAndFilter(shops: seq<MockData.Shop>, isLoadingShops: bool, userLocation: Option<Location>,
                            useLocationFilter: bool, maxDistance: real, searchQuery: string, selectedCategory: string,
                            selectedCity: string, distance: (real, real, real, real) -> real)
    returns (filtered: seq<MockData.Shop>)
    ensures isLoadingShops || shops == [] ==> filtered == []
    ensures |filtered| <= |shops|
    ensures !isLoadingShops && shops != [] && !(userLocation.Some? && useLocationFilter) ==>
              filtered == Filter(shops, (s: MockData.Shop) => Selected(s, searchQuery, selectedCategory, selectedCity))
    ensures !isLoadingShops && shops != [] && userLocation.Some? && useLocationFilter ==>
              ByDistance(filtered) &&
              forall s :: s in filtered <==>
                (exists i :: 0 <= i < |shops| && s == WithDistance(shops[i], userLocation.value, distance)) &&
                Near(s, maxDistance) && Selected(s, searchQuery, selectedCategory, selectedCity)
  {
    if isLoadingShops || |shops| == 0 {
      return [];
    }
    filtered := shops;
    if userLocation.Some? && useLocationFilter {
      filtered := NearestFirst(filtered, userLocation.value, maxDistance, distance);
    }
    ghost var sorted := filtered;
    if searchQuery != "" {
      var searchTerm := ToLower(searchQuery);
      filtered := Filter(filtered, (s: MockData.Shop) => Mentions(s, searchTerm));
    }
    if selectedCategory != "all" {
      filtered := Filter(filtered, (s: MockData.Shop) => s.category == selectedCategory);
    }
    if selectedCity != "all" {
      filtered := Filter(filtered, (s: MockData.Shop) => s.city == selectedCity);
    }
    SelectedInSteps(sorted, searchQuery, selectedCategory, selectedCity, filtered);
    if userLocation.Some? && useLocationFilter {
      FilterByDistance(sorted, (x: MockData.Shop) => Selected(x, searchQuery, selectedCategory, selectedCity));
    }
  }

  /** A filter applied only under `cond` is a filter by `!cond || f`. */
  lemma GuardedFilter(s: seq<MockData.Shop>, cond: bool, f: MockData.Shop -> bool, p: MockData.Shop -> bool)
    requires forall x :: p(x) == (!cond || f(x))
    ensures (if cond then Filter(s, f) else s) == Filter(s, p)
  {
    if cond {
      FilterExt(s, f, p);
    } else {
      FilterAll(s, p);
    }
  }

  /** The three filters in turn keep exactly the `Selected` shops, in order. */
  lemma SelectedInSteps(s: seq<MockData.Shop>, searchQuery: string, category: string, city: string, filtered: seq<MockData.Shop>)
    requires var a := if searchQuery != "" then Filter(s, (x: MockData.Shop) => Mentions(x, ToLower(searchQuery))) else s;
      var b := if category != "all" then Filter(a, (x: MockData.Shop) => x.category == category) else a;
      filtered == if city != "all" then Filter(b, (x: MockData.Shop) => x.city == city) else b
    ensures filtered == Filter(s, (x: MockData.Shop) => Selected(x, searchQuery, category, city))
  {
    var p1 := (x: MockData.Shop) => searchQuery == "" || Mentions(x, ToLower(searchQuery));
    var p2 := (x: MockData.Shop) => category == "all" || x.category == category;
    var p3 := (x: MockData.Shop) => city == "all" || x.city == city;
    var p12 := (x: MockData.Shop) => p1(x) && p2(x);
    var a := if searchQuery != "" then Filter(s, (x: MockData.Shop) => Mentions(x, ToLower(searchQuery))) else s;
    var b := if category != "all" then Filter(a, (x: MockData.Shop) => x.category == category) else a;
    GuardedFilter(s, searchQuery != "", (x: MockData.Shop) => Mentions(x, ToLower(searchQuery)), p1);
    GuardedFilter(a, category != "all", (x: MockData.Shop) => x.category == category, p2);
    GuardedFilter(b, city != "all", (x: MockData.Shop) => x.city == city, p3);
    FilterFilter(s, p1, p2, p12);
    FilterFilter(s, p12, p3, (x: MockData.Shop) => Selected(x, searchQuery, category, city));
  }
}
