/** The request ledger and the pure sequence transformations the store applies
    to it: append (array spread), status update (`map`), removal, the customer
    view and the status counts (`filter`). */
module Ledger {
  import opened Model

  predicate IsCustomer(session: Option<User>) {
    session.Some? && session.value.role == Customer
  }

  /** The record `addWasteRequest` builds from the form fields and the session user. */
  function NewRequest(u: User, f: RequestFields, id: string, createdAt: string): (r: WasteRequest)
    ensures r.id == id && r.createdAt == createdAt && r.status == Pending
    ensures r.customerId == u.id && r.customerName == u.name && r.customerEmail == u.email
    ensures RequestFields(r.wasteType, r.quantity, r.location, r.description, r.images) == f
  {
    WasteRequest(id, u.id, u.name, u.email, f.wasteType, f.quantity, f.location,
                 f.description, f.images, Pending, createdAt)
  }

  /** The ledger after `addWasteRequest`: one new pending record at the end when a
      customer is logged in, otherwise the ledger as it was. */
  function AddRequest(rs: seq<WasteRequest>, session: Option<User>, f: RequestFields,
                      id: string, createdAt: string): (r: seq<WasteRequest>)
    ensures !IsCustomer(session) ==> r == rs
    ensures IsCustomer(session) ==>
      && |r| == |rs| + 1 && r[..|rs|] == rs
      && r[|rs|].id == id && r[|rs|].createdAt == createdAt && r[|rs|].status == Pending
      && r[|rs|].customerId == session.value.id
      && r[|rs|].customerName == session.value.name
      && r[|rs|].customerEmail == session.value.email
      && RequestFields(r[|rs|].wasteType, r[|rs|].quantity, r[|rs|].location,
                       r[|rs|].description, r[|rs|].images) == f
  {
    if IsCustomer(session) then rs + [NewRequest(session.value, f, id, createdAt)] else rs
  }

  /** `updateRequestStatus`: every record with this id gets status `s`; nothing
      else changes, and the records keep their positions. */
  function WithStatus(rs: seq<WasteRequest>, id: string, s: Status): (r: seq<WasteRequest>)
    ensures |r| == |rs|
    ensures forall i :: 0 <= i < |rs| && rs[i].id == id ==> r[i] == rs[i].(status := s)
    ensures forall i :: 0 <= i < |rs| && rs[i].id != id ==> r[i] == rs[i]
  {
    if rs == [] then []
    else [if rs[0].id == id then rs[0].(status := s) else rs[0]] + WithStatus(rs[1..], id, s)
  }

  lemma WithStatusIdempotent(rs: seq<WasteRequest>, id: string, s: Status)
    ensures WithStatus(WithStatus(rs, id, s), id, s) == WithStatus(rs, id, s)
  {
  }

  lemma WithStatusAbsent(rs: seq<WasteRequest>, id: string, s: Status)
    requires forall x :: x in rs ==> x.id != id
    ensures WithStatus(rs, id, s) == rs
  {
  }

  /** `deleteWasteRequest`: the records with this id are gone; every other record
      is kept, with its multiplicity. `WithoutAppend` adds that the order is kept. */
  function Without(rs: seq<WasteRequest>, id: string): (r: seq<WasteRequest>)
    ensures |r| <= |rs|
    ensures forall x :: x in r <==> x in rs && x.id != id
    ensures forall x: WasteRequest :: x.id != id ==> multiset(r)[x] == multiset(rs)[x]
    ensures (exists k :: 0 <= k < |rs| && rs[k].id == id) ==> |r| < |rs|
  {
    if rs == [] then []
    else
      assert rs == [rs[0]] + rs[1..];
      if rs[0].id == id then Without(rs[1..], id) else [rs[0]] + Without(rs[1..], id)
  }

  /** Removal distributes over concatenation: the survivors keep their relative order. */
  lemma {:induction false} WithoutAppend(a: seq<WasteRequest>, b: seq<WasteRequest>, id: string)
    ensures Without(a + b, id) == Without(a, id) + Without(b, id)
  {
    if a == [] {
      assert a + b == b;
    } else {
      assert (a + b)[0] == a[0];
      assert (a + b)[1..] == a[1..] + b;
      WithoutAppend(a[1..], b, id);
    }
  }

  /** Removing an id that no record has leaves the ledger as it was. */
  lemma {:induction false} WithoutAbsent(rs: seq<WasteRequest>, id: string)
    requires forall x :: x in rs ==> x.id != id
    ensures Without(rs, id) == rs
  {
    if rs != [] {
      assert rs[0] in rs;
      WithoutAbsent(rs[1..], id);
    }
  }

  /** The records of one customer, in ledger order. */
  function OwnedBy(rs: seq<WasteRequest>, customerId: string): (r: seq<WasteRequest>)
    ensures |r| <= |rs|
    ensures forall x :: x in r <==> x in rs && x.customerId == customerId
  {
    if rs == [] then []
    else if rs[0].customerId == customerId then [rs[0]] + OwnedBy(rs[1..], customerId)
    else OwnedBy(rs[1..], customerId)
  }

  lemma {:induction false} OwnedByAppend(a: seq<WasteRequest>, b: seq<WasteRequest>, customerId: string)
    ensures OwnedBy(a + b, customerId) == OwnedBy(a, customerId) + OwnedBy(b, customerId)
  {
    if a == [] {
      assert a + b == b;
    } else {
      assert (a + b)[0] == a[0];
      assert (a + b)[1..] == a[1..] + b;
      OwnedByAppend(a[1..], b, customerId);
    }
  }

  /** The number of records with status `s` (`filter(...).length`). */
  function CountStatus(rs: seq<WasteRequest>, s: Status): (n: nat)
    ensures n <= |rs|
    ensures n == 0 <==> forall x :: x in rs ==> x.status != s
  {
    if rs == [] then 0
    else
      assert forall x :: x in rs <==> x == rs[0] || x in rs[1..];
      (if rs[0].status == s then 1 else 0) + CountStatus(rs[1..], s)
  }

  /** A single record counts once under its own status and nowhere else. */
  lemma CountStatusSingle(x: WasteRequest, s: Status)
    ensures CountStatus([x], s) == if x.status == s then 1 else 0
  {
    assert [x][1..] == [];
  }

  /** Counting distributes over concatenation; with `CountStatusSingle` this
      fixes the count of every ledger as its number of records with status `s`. */
  lemma {:induction false} CountStatusAppend(a: seq<WasteRequest>, b: seq<WasteRequest>, s: Status)
    ensures CountStatus(a + b, s) == CountStatus(a, s) + CountStatus(b, s)
  {
    if a == [] {
      assert a + b == b;
    } else {
      assert (a + b)[0] == a[0];
      assert (a + b)[1..] == a[1..] + b;
      CountStatusAppend(a[1..], b, s);
    }
  }

  /** A customer has at most as many requests with a status as the whole ledger. */
  lemma {:induction false} OwnedByCountBounded(rs: seq<WasteRequest>, customerId: string, s: Status)
    ensures CountStatus(OwnedBy(rs, customerId), s) <= CountStatus(rs, s)
  {
    if rs != [] {
      OwnedByCountBounded(rs[1..], customerId, s);
      if rs[0].customerId == customerId {
        assert OwnedBy(rs, customerId) == [rs[0]] + OwnedBy(rs[1..], customerId);
        CountStatusAppend([rs[0]], OwnedBy(rs[1..], customerId), s);
        CountStatusAppend([rs[0]], rs[1..], s);
        assert [rs[0]] + rs[1..] == rs;
      }
    }
  }

  /** Every record is counted under exactly one of the three statuses. */
  lemma {:induction false} StatusCountsSum(rs: seq<WasteRequest>)
    ensures CountStatus(rs, Pending) + CountStatus(rs, Accepted) + CountStatus(rs, Completed) == |rs|
  {
    if rs != [] {
      StatusCountsSum(rs[1..]);
    }
  }

  /** No two records share an id. The store does not guarantee this: ids are
      clock readings and two requests made in the same millisecond collide. */
  ghost predicate UniqueIds(rs: seq<WasteRequest>) {
    forall i, j :: 0 <= i < j < |rs| ==> rs[i].id != rs[j].id
  }

  /** Splitting a ledger with unique ids at its head. */
  lemma HeadAndTailUnique(rs: seq<WasteRequest>)
    requires UniqueIds(rs) && rs != []
    ensures UniqueIds(rs[1..])
    ensures forall y :: y in rs[1..] ==> y.id != rs[0].id
  {
    var t := rs[1..];
    assert forall k :: 0 <= k < |t| ==> t[k] == rs[k + 1];
  }

  lemma ConsUnique(x: WasteRequest, w: seq<WasteRequest>)
    requires UniqueIds(w) && forall y :: y in w ==> y.id != x.id
    ensures UniqueIds([x] + w)
  {
    var r := [x] + w;
    forall i, j | 0 <= i < j < |r| ensures r[i].id != r[j].id {
      assert r[j] == w[j - 1];
      if i > 0 {
        assert r[i] == w[i - 1];
      }
    }
  }

  lemma {:induction false} WithoutKeepsUniqueIds(rs: seq<WasteRequest>, id: string)
    requires UniqueIds(rs)
    ensures UniqueIds(Without(rs, id))
  {
    if rs != [] {
      HeadAndTailUnique(rs);
      WithoutKeepsUniqueIds(rs[1..], id);
      if rs[0].id != id {
        ConsUnique(rs[0], Without(rs[1..], id));
      }
    }
  }

  /** The progress of the request with this id through its lifecycle:
      0 pending, 1 accepted, 2 completed, 3 removed (no record with the id). */
  function Rank(s: Status): nat {
    match s
    case Pending => 0
    case Accepted => 1
    case Completed => 2
  }

  const Removed: nat := 3

  function StageOf(rs: seq<WasteRequest>, id: string): (n: nat)
    ensures n <= Removed
    ensures n == Removed <==> forall k :: 0 <= k < |rs| ==> rs[k].id != id
    ensures forall k :: 0 <= k < |rs| && rs[k].id == id && (forall j :: 0 <= j < k ==> rs[j].id != id)
                        ==> n == Rank(rs[k].status)
  {
    if rs == [] then Removed
    else if rs[0].id == id then Rank(rs[0].status)
    else
      assert forall k :: 0 < k < |rs| ==> rs[k] == rs[1..][k - 1];
      StageOf(rs[1..], id)
  }

  lemma StageOfMember(rs: seq<WasteRequest>, x: WasteRequest)
    requires UniqueIds(rs) && x in rs
    ensures StageOf(rs, x.id) == Rank(x.status)
  {
    var k :| 0 <= k < |rs| && rs[k] == x;
    assert forall j :: 0 <= j < k ==> rs[j].id != x.id;
  }
}
