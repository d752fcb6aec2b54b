/** The company dashboard: every request in ledger order, status counts, and one
    card per request whose buttons depend on the request's status. The store
    itself accepts any status update or removal; the request lifecycle
    pending -> accepted -> completed -> removed comes from which buttons are
    rendered. */
module CompanyPortal {
  import opened Model
  import opened Registry
  import opened Ledger
  import opened AuthContext

  /** A company sees the whole ledger, unfiltered and in ledger order. */
  function AvailableRequests(rs: seq<WasteRequest>): (r: seq<WasteRequest>)
    ensures |r| == |rs| && forall i :: 0 <= i < |rs| ==> r[i] == rs[i]
  {
    rs
  }

  /** Every customer's own requests are among the ones a company sees. */
  lemma CustomerViewsIncluded(rs: seq<WasteRequest>, customerId: string)
    ensures forall x :: x in OwnedBy(rs, customerId) ==> x in AvailableRequests(rs)
  {
  }

  datatype CompanyStats = CompanyStats(total: nat, pending: nat, accepted: nat, completed: nat)

  /** The sidebar's four counters over the whole ledger: each status counter is
      the number of requests with that status, and the three add up to the total. */
  function Stats(rs: seq<WasteRequest>): (s: CompanyStats)
    ensures s.total == |rs|
    ensures s.pending == CountStatus(rs, Pending)
    ensures s.accepted == CountStatus(rs, Accepted)
    ensures s.completed == CountStatus(rs, Completed)
    ensures s.pending + s.accepted + s.completed == s.total
  {
    var view := AvailableRequests(rs);
    StatusCountsSum(view);
    CompanyStats(|view|, CountStatus(view, Pending), CountStatus(view, Accepted), CountStatus(view, Completed))
  }

  datatype Action = Accept | Complete | Contact | Delete

  /** The buttons on a request's card: Accept only while pending, Mark Complete
      only once accepted, Delete only once completed; Contact Customer always. */
  function Offered(r: WasteRequest): (acts: set<Action>)
    ensures Accept in acts <==> r.status == Pending
    ensures Complete in acts <==> r.status == Accepted
    ensures Delete in acts <==> r.status == Completed
    ensures Contact in acts
  {
    match r.status
    case Pending => {Accept, Contact}
    case Accepted => {Complete, Contact}
    case Completed => {Contact, Delete}
  }

  /** The ledger after pressing button `a` on the card of request `i`; each
      button hands the request's id to the store. */
  function Click(rs: seq<WasteRequest>, i: nat, a: Action): (r: seq<WasteRequest>)
    requires i < |rs| && a in Offered(rs[i])
    ensures a == Accept ==> |r| == |rs| && rs[i].status == Pending && r[i] == rs[i].(status := Accepted)
    ensures a == Complete ==> |r| == |rs| && rs[i].status == Accepted && r[i] == rs[i].(status := Completed)
    ensures a == Delete ==> rs[i].status == Completed && |r| < |rs| && forall x :: x in r ==> x.id != rs[i].id
    ensures a == Contact ==> r == rs
  {
    match a
    case Accept => WithStatus(rs, rs[i].id, Accepted)
    case Complete => WithStatus(rs, rs[i].id, Completed)
    case Delete => Without(rs, rs[i].id)
    case Contact => rs
  }

  /** A status update keeps every id at its position, so it keeps ids unique. */
  lemma WithStatusKeepsUniqueIds(rs: seq<WasteRequest>, id: string, s: Status)
    requires UniqueIds(rs)
    ensures UniqueIds(WithStatus(rs, id, s))
  {
    var r := WithStatus(rs, id, s);
    assert forall k :: 0 <= k < |rs| ==> r[k].id == rs[k].id;
  }

  /** A status update moves the request with that id to the new status and no
      other request. */
  lemma {:induction false} WithStatusStage(rs: seq<WasteRequest>, target: string, s: Status, id: string)
    requires UniqueIds(rs)
    requires exists k :: 0 <= k < |rs| && rs[k].id == target
    ensures StageOf(WithStatus(rs, target, s), id) == if id == target then Rank(s) else StageOf(rs, id)
  {
    var r := WithStatus(rs, target, s);
    WithStatusKeepsUniqueIds(rs, target, s);
    assert forall k :: 0 <= k < |rs| ==> r[k].id == rs[k].id;
    if id == target {
      var k :| 0 <= k < |rs| && rs[k].id == target;
      assert r[k] in r;
      StageOfMember(r, r[k]);
    } else if k :| 0 <= k < |rs| && rs[k].id == id {
      assert r[k] == rs[k];
      StageOfMember(rs, rs[k]);
      StageOfMember(r, r[k]);
    }
  }

  /** Removal takes the request with that id out and leaves the others' stages. */
  lemma {:induction false} WithoutStage(rs: seq<WasteRequest>, target: string, id: string)
    requires UniqueIds(rs)
    ensures StageOf(Without(rs, target), id) == if id == target then Removed else StageOf(rs, id)
  {
    var r := Without(rs, target);
    WithoutKeepsUniqueIds(rs, target);
    if id == target {
      assert forall k :: 0 <= k < |r| ==> r[k] in r;
    } else if k :| 0 <= k < |rs| && rs[k].id == id {
      assert rs[k] in rs && rs[k] in r;
      StageOfMember(rs, rs[k]);
      StageOfMember(r, rs[k]);
    } else {
      forall k | 0 <= k < |r| ensures r[k].id != id {
        assert r[k] in r && r[k] in rs;
      }
    }
  }

  /** On a ledger whose ids are unique, every offered button moves its own
      request exactly one stage forward and leaves every other request where it
      is; ids stay unique. */
  lemma ClickAdvancesOneStage(rs: seq<WasteRequest>, i: nat, a: Action, id: string)
    requires UniqueIds(rs) && i < |rs| && a in Offered(rs[i])
    ensures UniqueIds(Click(rs, i, a))
    ensures StageOf(Click(rs, i, a), id) ==
            if a != Contact && id == rs[i].id then StageOf(rs, id) + 1 else StageOf(rs, id)
  {
    StageOfMember(rs, rs[i]);
    match a
    case Accept =>
      WithStatusKeepsUniqueIds(rs, rs[i].id, Accepted);
      WithStatusStage(rs, rs[i].id, Accepted, id);
    case Complete =>
      WithStatusKeepsUniqueIds(rs, rs[i].id, Completed);
      WithStatusStage(rs, rs[i].id, Completed, id);
    case Delete =>
      WithoutKeepsUniqueIds(rs, rs[i].id);
      WithoutStage(rs, rs[i].id, id);
    case Contact =>
  }

  /** A press of button `action` on the card at position `index`. */
  datatype Press = Press(index: nat, action: Action)

  /** Every press in the sequence is on a button the dashboard shows at that point. */
  ghost predicate OfferedRun(rs: seq<WasteRequest>, presses: seq<Press>)
    decreases |presses|
  {
    presses == [] ||
    (presses[0].index < |rs| && presses[0].action in Offered(rs[presses[0].index]) &&
     OfferedRun(Click(rs, presses[0].index, presses[0].action), presses[1..]))
  }

  ghost function Run(rs: seq<WasteRequest>, presses: seq<Press>): seq<WasteRequest>
    requires OfferedRun(rs, presses)
    decreases |presses|
  {
    if presses == [] then rs
    else Run(Click(rs, presses[0].index, presses[0].action), presses[1..])
  }

  /** Pressing only shown buttons, no request ever goes back a stage, and each
      press moves a request by at most one stage, so none is skipped. */
  lemma {:induction false} RunNeverRegresses(rs: seq<WasteRequest>, presses: seq<Press>, id: string)
    requires UniqueIds(rs) && OfferedRun(rs, presses)
    ensures UniqueIds(Run(rs, presses))
    ensures StageOf(rs, id) <= StageOf(Run(rs, presses), id) <= StageOf(rs, id) + |presses|
    decreases |presses|
  {
    if presses != [] {
      var p := presses[0];
      ClickAdvancesOneStage(rs, p.index, p.action, id);
      RunNeverRegresses(Click(rs, p.index, p.action), presses[1..], id);
    }
  }

  /** Without unique ids the lifecycle does not hold: when a pending and a
      completed request share an id, accepting the pending one also moves the
      completed one back to accepted. */
  lemma CollidingIdsRegress(open: WasteRequest)
    requires open.status == Pending
    ensures var done := open.(status := Completed);
            var rs := [open, done];
            && Accept in Offered(rs[0])
            && Click(rs, 0, Accept)[1] == done.(status := Accepted)
  {
  }

  /** The contact dialog's customer: the first registry account whose id is the
      request's customer id, if there is one. */
  function CustomerContact(users: seq<Account>, request: WasteRequest): (c: Option<Account>)
    ensures c.None? <==> forall k :: 0 <= k < |users| ==> users[k].id != request.customerId
    ensures c.Some? ==> exists k :: 0 <= k < |users| && users[k] == c.value && c.value.id == request.customerId
                                    && forall j :: 0 <= j < k ==> users[j].id != request.customerId
  {
    match Find(users, ById(request.customerId))
    case None => None
    case Some(k) => Some(users[k])
  }

  class CompanyDashboard {
    const store: AuthStore
    var selectedCustomer: Option<Account>

    constructor (store: AuthStore)
      ensures this.store == store && selectedCustomer == None
    {
      this.store := store;
      selectedCustomer := None;
    }

    method HandleAcceptRequest(requestId: string)
      modifies store`requests
      ensures store.requests == WithStatus(old(store.requests), requestId, Accepted)
    {
      store.UpdateRequestStatus(requestId, Accepted);
    }

    method HandleCompleteRequest(requestId: string)
      modifies store`requests
      ensures store.requests == WithStatus(old(store.requests), requestId, Completed)
    {
      store.UpdateRequestStatus(requestId, Completed);
    }

    method HandleDeleteRequest(requestId: string)
      modifies store`requests
      ensures store.requests == Without(old(store.requests), requestId)
    {
      store.DeleteWasteRequest(requestId);
    }

    method HandleContactCustomer(request: WasteRequest)
      modifies this`selectedCustomer
      ensures selectedCustomer == CustomerContact(store.users, request)
    {
      selectedCustomer := CustomerContact(store.users, request);
    }

    /** What pressing an offered button on card `i` does to the store. */
    method PressButton(i: nat, a: Action)
      requires i < |store.requests| && a in Offered(store.requests[i])
      modifies store`requests, this`selectedCustomer
      ensures store.requests == Click(old(store.requests), i, a)
      ensures a == Contact ==> selectedCustomer == CustomerContact(store.users, old(store.requests)[i])
      ensures a != Contact ==> selectedCustomer == old(selectedCustomer)
    {
      var request := store.requests[i];
      match a
      case Accept => HandleAcceptRequest(request.id);
      case Complete => HandleCompleteRequest(request.id);
      case Delete => HandleDeleteRequest(request.id);
      case Contact => HandleContactCustomer(request);
    }
  }
}
