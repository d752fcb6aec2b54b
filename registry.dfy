/** The account registry: a flat list of accounts searched front to back. */
module Registry {
  import opened Model

  /** The three ways the registry is searched: `login` by email and role,
      `signup` by email alone, the company dashboard's contact lookup by id. */
  datatype Query =
    | ByCredentials(email: string, role: Role)
    | ByEmail(email: string)
    | ById(id: string)

  predicate Matches(a: Account, q: Query) {
    match q
    case ByCredentials(e, r) => a.email == e && a.role == r
    case ByEmail(e) => a.email == e
    case ById(i) => a.id == i
  }

  /** The position of the first account that matches `q` (what `Array.find` returns). */
  function Find(users: seq<Account>, q: Query): (r: Option<nat>)
    ensures r.Some? ==> r.value < |users| && Matches(users[r.value], q)
    ensures r.Some? ==> forall j :: 0 <= j < r.value ==> !Matches(users[j], q)
    ensures r.None? <==> forall j :: 0 <= j < |users| ==> !Matches(users[j], q)
  {
    if users == [] then None
    else if Matches(users[0], q) then Some(0)
    else match Find(users[1..], q)
      case None => None
      case Some(k) => Some(k + 1)
  }

  /** The session value built from an account: every field but the password. */
  function Public(a: Account): (u: User)
    ensures u.id == a.id && u.email == a.email && u.role == a.role
    ensures u.name == a.name && u.phone == a.phone && u.address == a.address
    ensures Matches(a, ByCredentials(u.email, u.role)) && Matches(a, ById(u.id))
  {
    User(a.id, a.email, a.role, a.name, a.phone, a.address)
  }

  /** No two registry entries share an email. */
  ghost predicate DistinctEmails(users: seq<Account>) {
    forall i, j :: 0 <= i < |users| && 0 <= j < |users| && users[i].email == users[j].email ==> i == j
  }

  /** A credentials match is in particular an email match, so an email that is not
      registered under any role cannot log in under either role. */
  lemma UnknownEmailCannotLogin(users: seq<Account>, email: string, role: Role)
    requires Find(users, ByEmail(email)).None?
    ensures Find(users, ByCredentials(email, role)).None?
  {
  }

  /** Signing up an account whose email is not yet registered: that account is
      found afterwards by email and under its own role (at the end of the
      registry), and not under the other role. */
  lemma {:induction false} FoundAfterSignup(users: seq<Account>, a: Account, role: Role)
    requires Find(users, ByEmail(a.email)).None?
    ensures Find(users + [a], ByEmail(a.email)) == Some(|users|)
    ensures Find(users + [a], ByCredentials(a.email, role)) == if role == a.role then Some(|users|) else None
  {
    var s := users + [a];
    assert forall j :: 0 <= j < |users| ==> s[j] == users[j];
    assert s[|users|] == a;
  }

  /** Appending an account with an unregistered email keeps the emails distinct. */
  lemma SignupKeepsEmailsDistinct(users: seq<Account>, a: Account)
    requires DistinctEmails(users)
    requires Find(users, ByEmail(a.email)).None?
    ensures DistinctEmails(users + [a])
  {
    var s := users + [a];
    assert forall k :: 0 <= k < |users| ==> !Matches(users[k], ByEmail(a.email));
    assert forall k :: 0 <= k < |users| ==> s[k] == users[k];
  }

  /** With distinct emails, the account `login` picks is the only one with that
      email and role. */
  lemma LoginMatchIsUnique(users: seq<Account>, email: string, role: Role, k: nat)
    requires DistinctEmails(users)
    requires k < |users| && users[k].email == email && users[k].role == role
    ensures Find(users, ByCredentials(email, role)) == Some(k)
  {
    var r := Find(users, ByCredentials(email, role));
    assert Matches(users[k], ByCredentials(email, role));
    assert r.Some?;
  }
}
