/** The records the waste-collection store keeps: registry accounts, the session
    identity, waste requests and the mock nearby companies. Strings are compared
    exactly (no case folding), as the store's `===` comparisons do. */
module Model {

  datatype Option<T> = None | Some(value: T)

  datatype Role = Customer | Company

  datatype Status = Pending | Accepted | Completed

  /** The statuses `updateRequestStatus` accepts: its parameter type leaves out `pending`. */
  type NewStatus = s: Status | s != Pending witness Accepted

  /** The session identity: the public fields of an account. */
  datatype User = User(
    id: string,
    email: string,
    role: Role,
    name: string,
    phone: Option<string>,
    address: Option<string>)

  /** A registry entry: the identity fields plus the plaintext password. */
  datatype Account = Account(
    id: string,
    email: string,
    role: Role,
    name: string,
    phone: Option<string>,
    address: Option<string>,
    password: string)

  /** What a customer fills in for a new request; the customer dashboard's form
      state has exactly these fields and is handed to the store as it is. */
  datatype RequestFields = RequestFields(
    wasteType: string,
    quantity: string,
    location: string,
    description: string,
    images: seq<string>)

  datatype WasteRequest = WasteRequest(
    id: string,
    customerId: string,
    customerName: string,
    customerEmail: string,
    wasteType: string,
    quantity: string,
    location: string,
    description: string,
    images: seq<string>,
    status: Status,
    createdAt: string)

  /** A mock nearby company. `distance` is in tenths of a kilometre and `rating`
      in tenths of a star, standing for the source's formatted string and float. */
  datatype NearbyCompany = NearbyCompany(
    id: string,
    name: string,
    distance: nat,
    rating: nat,
    services: seq<string>)
}
