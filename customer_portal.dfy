/** The customer dashboard: the customer's own requests, their counters, and the
    new-request form, whose submit hands the form to the store. */
module CustomerPortal {
  import opened Model
  import opened Ledger
  import opened AuthContext

  const EmptyForm: RequestFields := RequestFields("", "", "", "", [])

  /** Waste type, quantity and location must be filled in; the description and
      the images may be empty. */
  predicate Submittable(f: RequestFields) {
    f.wasteType != "" && f.quantity != "" && f.location != ""
  }

  /** Whether a form can be submitted does not depend on its description or images. */
  lemma SubmitIgnoresOptionalFields(f: RequestFields, description: string, images: seq<string>)
    ensures Submittable(f.(description := description, images := images)) == Submittable(f)
  {
  }

  /** The requests whose customer id is the session user's, in ledger order;
      nothing without a session. */
  function CustomerRequests(rs: seq<WasteRequest>, session: Option<User>): (r: seq<WasteRequest>)
    ensures session.None? ==> r == []
    ensures session.Some? ==> forall x :: x in r <==> x in rs && x.customerId == session.value.id
    ensures |r| <= |rs|
  {
    if session.None? then [] else OwnedBy(rs, session.value.id)
  }

  /** A customer's view of a ledger that has grown at the end is their earlier
      view followed by their share of the new records: customers never see each
      other's requests appear, and their own keep their order. */
  lemma CustomerRequestsAppend(a: seq<WasteRequest>, b: seq<WasteRequest>, session: Option<User>)
    ensures CustomerRequests(a + b, session) == CustomerRequests(a, session) + CustomerRequests(b, session)
  {
    if session.Some? {
      OwnedByAppend(a, b, session.value.id);
    }
  }

  datatype CustomerStats = CustomerStats(total: nat, pending: nat, completed: nat)

  /** The three counters over the session customer's own requests: each status
      counter is the number of their requests with that status, and pending and
      completed together are at most all of them (the accepted ones are the rest). */
  function Stats(rs: seq<WasteRequest>, session: Option<User>): (s: CustomerStats)
    ensures s.total == |CustomerRequests(rs, session)|
    ensures s.pending == CountStatus(CustomerRequests(rs, session), Pending)
    ensures s.completed == CountStatus(CustomerRequests(rs, session), Completed)
    ensures s.pending + s.completed <= s.total
    ensures s.total - s.pending - s.completed == CountStatus(CustomerRequests(rs, session), Accepted)
  {
    var view := CustomerRequests(rs, session);
    StatusCountsSum(view);
    CustomerStats(|view|, CountStatus(view, Pending), CountStatus(view, Completed))
  }

  /** A customer's counters never exceed the company dashboard's: their pending
      and completed requests are among the ledger's. */
  lemma CustomerStatsBounded(rs: seq<WasteRequest>, session: Option<User>)
    ensures Stats(rs, session).total <= |rs|
    ensures Stats(rs, session).pending <= CountStatus(rs, Pending)
    ensures Stats(rs, session).completed <= CountStatus(rs, Completed)
  {
    if session.Some? {
      OwnedByCountBounded(rs, session.value.id, Pending);
      OwnedByCountBounded(rs, session.value.id, Completed);
    }
  }

  /** A submit by a logged-in customer puts exactly one more record, pending and
      carrying the form, at the end of that customer's view. */
  lemma {:induction false} SubmitGrowsView(rs: seq<WasteRequest>, u: User, f: RequestFields,
                                          id: string, createdAt: string)
    requires u.role == Customer
    ensures var after := AddRequest(rs, Some(u), f, id, createdAt);
            && CustomerRequests(after, Some(u)) == CustomerRequests(rs, Some(u)) + [after[|rs|]]
            && after[|rs|].status == Pending
            && after[|rs|].wasteType == f.wasteType && after[|rs|].quantity == f.quantity
            && after[|rs|].location == f.location
  {
    var after := AddRequest(rs, Some(u), f, id, createdAt);
    assert after == rs + [after[|rs|]];
    OwnedByAppend(rs, [after[|rs|]], u.id);
  }

  /** Only a customer's submit adds anything: with no session or a company
      session the ledger, and so every view of it, stays the same. */
  lemma NonCustomerSubmitAddsNothing(rs: seq<WasteRequest>, session: Option<User>, f: RequestFields,
                                     id: string, createdAt: string, viewer: Option<User>)
    requires !IsCustomer(session)
    ensures CustomerRequests(AddRequest(rs, session, f, id, createdAt), viewer) == CustomerRequests(rs, viewer)
  {
  }

  class CustomerDashboard {
    const store: AuthStore
    var showForm: bool
    var formData: RequestFields

    constructor (store: AuthStore)
      ensures this.store == store && !showForm && formData == EmptyForm
    {
      this.store := store;
      showForm := false;
      formData := EmptyForm;
    }

    /** New Waste Request: shows the form. */
    method OpenForm()
      modifies this`showForm
      ensures showForm
    {
      showForm := true;
    }

    /** Cancel: hides the form and keeps what was typed. */
    method CancelForm()
      modifies this`showForm
      ensures !showForm
    {
      showForm := false;
    }

    method SetWasteType(value: string)
      modifies this`formData
      ensures formData == old(formData).(wasteType := value)
    {
      formData := formData.(wasteType := value);
    }

    method SetQuantity(value: string)
      modifies this`formData
      ensures formData == old(formData).(quantity := value)
    {
      formData := formData.(quantity := value);
    }

    method SetLocation(value: string)
      modifies this`formData
      ensures formData == old(formData).(location := value)
    {
      formData := formData.(location := value);
    }

    method SetDescription(value: string)
      modifies this`formData
      ensures formData == old(formData).(description := value)
    {
      formData := formData.(description := value);
    }

    /** With the three required fields filled in, hands the form to the store,
        then clears and hides it; otherwise changes nothing. */
    method HandleSubmit(newId: string, createdAt: string)
      modifies this`formData, this`showForm, store`requests
      ensures Submittable(old(formData)) ==>
        && store.requests == AddRequest(old(store.requests), store.session, old(formData), newId, createdAt)
        && formData == EmptyForm && !showForm
      ensures !Submittable(old(formData)) ==>
        && store.requests == old(store.requests)
        && formData == old(formData) && showForm == old(showForm)
    {
      if Submittable(formData) {
        store.AddWasteRequest(formData, newId, createdAt);
        formData := EmptyForm;
        showForm := false;
      }
    }
  }
}
