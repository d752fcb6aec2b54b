/** The client-side store: the account registry, the session and the request
    ledger, with the operations the dashboards call. `session`, `requests` and
    `nearbyCompanies` are the provider's state; `users` stands for the account
    list the source keeps only in browser storage. Clock readings (ids,
    timestamps) and the random distances of the company locator are passed in. */
module AuthContext {
  import opened Model
  import opened Registry
  import opened Ledger
  import opened Locator

  class AuthStore {
    var users: seq<Account>
    var session: Option<User>
    var requests: seq<WasteRequest>
    var nearbyCompanies: seq<NearbyCompany>

    /** The store as loaded at start-up: a stored session and ledger are taken
        over, absent ones give no session and an empty ledger. */
    constructor (savedUsers: seq<Account>, savedUser: Option<User>, savedRequests: Option<seq<WasteRequest>>)
      ensures users == savedUsers && session == savedUser
      ensures requests == (if savedRequests.Some? then savedRequests.value else [])
      ensures nearbyCompanies == []
    {
      users := savedUsers;
      session := savedUser;
      requests := if savedRequests.Some? then savedRequests.value else [];
      nearbyCompanies := [];
    }

    /** Succeeds exactly when some account has this email and role; the password
        is never looked at. The session becomes the first such account's public
        fields; on failure the session stays what it was. */
    method Login(email: string, password: string, role: Role) returns (ok: bool)
      modifies this`session
      ensures ok <==> Find(users, ByCredentials(email, role)).Some?
      ensures ok ==> session == Some(Public(users[Find(users, ByCredentials(email, role)).value]))
      ensures !ok ==> session == old(session)
      ensures users == old(users) && requests == old(requests)
    {
      var found := Find(users, ByCredentials(email, role));
      if found.Some? {
        session := Some(Public(users[found.value]));
        ok := true;
      } else {
        ok := false;
      }
    }

    /** Fails, changing nothing, when the email is registered under any role.
        Otherwise appends one account (keeping the password) at the end of the
        registry and makes its public fields the session. */
    method Signup(email: string, password: string, name: string, role: Role,
                  phone: Option<string>, address: Option<string>, newId: string) returns (ok: bool)
      modifies this`users, this`session
      ensures ok <==> Find(old(users), ByEmail(email)).None?
      ensures ok ==> users == old(users) + [Account(newId, email, role, name, phone, address, password)]
      ensures ok ==> session == Some(User(newId, email, role, name, phone, address))
      ensures !ok ==> users == old(users) && session == old(session)
      ensures DistinctEmails(old(users)) ==> DistinctEmails(users)
      ensures requests == old(requests)
    {
      var existing := Find(users, ByEmail(email));
      if existing.None? {
        var account := Account(newId, email, role, name, phone, address, password);
        if DistinctEmails(users) {
          SignupKeepsEmailsDistinct(users, account);
        }
        users := users + [account];
        session := Some(Public(account));
        ok := true;
      } else {
        ok := false;
      }
    }

    /** Always ends the session; registry and ledger are untouched. */
    method Logout()
      modifies this`session
      ensures session == None
      ensures users == old(users) && requests == old(requests)
    {
      session := None;
    }

    /** Appends one pending request built from the fields and the session when a
        customer is logged in; otherwise does nothing. */
    method AddWasteRequest(fields: RequestFields, newId: string, createdAt: string)
      modifies this`requests
      ensures requests == AddRequest(old(requests), session, fields, newId, createdAt)
    {
      if !IsCustomer(session) {
        return;
      }
      requests := requests + [NewRequest(session.value, fields, newId, createdAt)];
    }

    method UpdateRequestStatus(requestId: string, status: NewStatus)
      modifies this`requests
      ensures requests == WithStatus(old(requests), requestId, status)
    {
      requests := WithStatus(requests, requestId, status);
    }

    method DeleteWasteRequest(requestId: string)
      modifies this`requests
      ensures requests == Without(old(requests), requestId)
    {
      requests := Without(requests, requestId);
    }

    /** Replaces the company list with the catalogue ranked by the drawn distances. */
    method UpdateNearbyCompanies(location: Location, d1: nat, d2: nat, d3: nat, d4: nat, d5: nat)
      modifies this`nearbyCompanies
      ensures nearbyCompanies == Nearby(location, d1, d2, d3, d4, d5)
    {
      nearbyCompanies := Nearby(location, d1, d2, d3, d4, d5);
    }
  }
}
