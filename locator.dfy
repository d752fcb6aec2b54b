/** The nearby-company mock: a fixed catalogue of five companies whose distances
    are drawn at random on every call, ranked closest first. The random draws are
    parameters here; the caller's location is accepted and ignored. */
module Locator {
  import opened Model

  datatype Location = Location(lat: real, lng: real)

  /** The catalogue in its written order, with the drawn distances (tenths of a km). */
  function Catalog(d1: nat, d2: nat, d3: nat, d4: nat, d5: nat): (r: seq<NearbyCompany>)
    ensures |r| == 5
    ensures r[0].distance == d1 && r[1].distance == d2 && r[2].distance == d3
            && r[3].distance == d4 && r[4].distance == d5
    ensures forall i, j :: 0 <= i < j < |r| ==> r[i].id != r[j].id
    ensures forall c :: c in r ==> 45 <= c.rating <= 49 && |c.services| == 3
  {
    [ NearbyCompany("1", "EcoClean Solutions", d1, 48, ["Electronic Waste", "Plastic Waste", "Metal Waste"]),
      NearbyCompany("2", "GreenWaste Recyclers", d2, 46, ["Organic Waste", "Paper Waste", "Glass Waste"]),
      NearbyCompany("3", "WasteCare Pro", d3, 47, ["Electronic Waste", "Hazardous Waste", "Bulk Waste"]),
      NearbyCompany("4", "RecycleMaster Inc", d4, 45, ["All Types", "Pickup Service", "24/7 Available"]),
      NearbyCompany("5", "Local Waste Solutions", d5, 49, ["Residential Pickup", "Commercial Waste", "Recycling"]) ]
  }

  /** The ranges the draws fall in once rounded to one decimal: 1.0-4.0, 2.0-5.0,
      3.0-6.0, 4.0-7.0 and 0.5-2.5 km. */
  predicate Drawn(d1: nat, d2: nat, d3: nat, d4: nat, d5: nat) {
    && 10 <= d1 <= 40 && 20 <= d2 <= 50 && 30 <= d3 <= 60
    && 40 <= d4 <= 70 && 5 <= d5 <= 25
  }

  predicate SortedByDistance(s: seq<NearbyCompany>) {
    forall i, j :: 0 <= i < j < |s| ==> s[i].distance <= s[j].distance
  }

  lemma ConsSorted(h: NearbyCompany, t: seq<NearbyCompany>)
    requires SortedByDistance(t)
    requires forall k :: 0 <= k < |t| ==> h.distance <= t[k].distance
    ensures SortedByDistance([h] + t)
  {
    var r := [h] + t;
    forall i, j | 0 <= i < j < |r| ensures r[i].distance <= r[j].distance {
      assert r[j] == t[j - 1];
      if i > 0 {
        assert r[i] == t[i - 1];
      }
    }
  }

  /** Puts `c` in front of the first company that is at least as far away. */
  function Insert(c: NearbyCompany, s: seq<NearbyCompany>): (r: seq<NearbyCompany>)
    requires SortedByDistance(s)
    ensures SortedByDistance(r)
    ensures multiset(r) == multiset(s) + multiset{c}
    ensures forall x :: x in r ==> x == c || x in s
  {
    if s == [] || c.distance <= s[0].distance then
      ConsSorted(c, s);
      [c] + s
    else
      var rest := Insert(c, s[1..]);
      assert s == [s[0]] + s[1..];
      assert forall k :: 0 <= k < |rest| ==> rest[k] in rest;
      ConsSorted(s[0], rest);
      [s[0]] + rest
  }

  /** A stable insertion sort by distance, standing for the comparator sort. */
  function SortByDistance(s: seq<NearbyCompany>): (r: seq<NearbyCompany>)
    ensures SortedByDistance(r)
    ensures multiset(r) == multiset(s)
  {
    if s == [] then []
    else
      assert s == [s[0]] + s[1..];
      Insert(s[0], SortByDistance(s[1..]))
  }

  /** The list `updateNearbyCompanies` publishes. */
  function Nearby(location: Location, d1: nat, d2: nat, d3: nat, d4: nat, d5: nat): (r: seq<NearbyCompany>)
    ensures |r| == 5
    ensures SortedByDistance(r)
    ensures multiset(r) == multiset(Catalog(d1, d2, d3, d4, d5))
  {
    var r := SortByDistance(Catalog(d1, d2, d3, d4, d5));
    assert |r| == |multiset(r)|;
    r
  }

  lemma CatalogIds(d1: nat, d2: nat, d3: nat, d4: nat, d5: nat)
    ensures (set c | c in Catalog(d1, d2, d3, d4, d5) :: c.id) == {"1", "2", "3", "4", "5"}
  {
    var cat := Catalog(d1, d2, d3, d4, d5);
    assert cat[0].id == "1" && cat[1].id == "2" && cat[2].id == "3" && cat[3].id == "4" && cat[4].id == "5";
    assert forall c :: c in cat ==> c.id in {"1", "2", "3", "4", "5"};
  }

  lemma SameMembersSameIds(a: seq<NearbyCompany>, b: seq<NearbyCompany>)
    requires forall c :: c in a <==> c in b
    ensures (set c | c in a :: c.id) == (set c | c in b :: c.id)
  {
  }

  /** Exactly the companies 1 to 5 are listed; as there are five entries, each
      of them once. */
  lemma NearbyListsCatalog(location: Location, d1: nat, d2: nat, d3: nat, d4: nat, d5: nat)
    ensures forall c :: c in Nearby(location, d1, d2, d3, d4, d5) <==> c in Catalog(d1, d2, d3, d4, d5)
    ensures (set c | c in Nearby(location, d1, d2, d3, d4, d5) :: c.id) == {"1", "2", "3", "4", "5"}
  {
    var r := Nearby(location, d1, d2, d3, d4, d5);
    var cat := Catalog(d1, d2, d3, d4, d5);
    assert forall c :: c in r <==> c in multiset(r);
    assert forall c :: c in cat <==> c in multiset(cat);
    CatalogIds(d1, d2, d3, d4, d5);
    SameMembersSameIds(r, cat);
  }

  /** Where the call is made from does not change the result. */
  lemma LocationIgnored(l1: Location, l2: Location, d1: nat, d2: nat, d3: nat, d4: nat, d5: nat)
    ensures Nearby(l1, d1, d2, d3, d4, d5) == Nearby(l2, d1, d2, d3, d4, d5)
  {
  }

  /** With distances in their drawn ranges, the first company listed is at most
      2.5 km away, since company 5 is never farther than that. */
  lemma NearestWithinReach(location: Location, d1: nat, d2: nat, d3: nat, d4: nat, d5: nat)
    requires Drawn(d1, d2, d3, d4, d5)
    ensures Nearby(location, d1, d2, d3, d4, d5)[0].distance <= 25
  {
    var r := Nearby(location, d1, d2, d3, d4, d5);
    var cat := Catalog(d1, d2, d3, d4, d5);
    var c5 := cat[4];
    assert c5.distance == d5 <= 25;
    assert c5 in multiset(cat);
    assert c5 in multiset(r);
    var k :| 0 <= k < |r| && r[k] == c5;
    assert r[0].distance <= r[k].distance;
  }
}
