# Waste-collection marketplace store, in Dafny

This project models the client-side store of a browser waste-collection
marketplace, together with the action rules its two dashboards put on top of it.
Customers sign up, log in and submit pickup requests. Companies see every
request and move each one through `pending → accepted → completed`, then delete
it. The store has three parts:

- an **account registry**: accounts with plaintext passwords, searched by email
  and role on login and by email on signup;
- the **session**: at most one logged-in identity;
- the **request ledger**: every waste request, in submission order.

It also has a **locator mock**. It ranks a fixed catalogue of five companies by
randomly drawn distances.

Layout, one module per file:

- `model.dfy` (`Model`): the records.
- `registry.dfy` (`Registry`): registry search and the public identity fields.
- `ledger.dfy` (`Ledger`): the ledger transformations as pure sequence functions.
  These are append, status update (`map`), removal (`filter`), the per-customer
  filter and the status counts. The module also defines the lifecycle stage of
  a request.
- `locator.dfy` (`Locator`): the catalogue and its ranking.
- `auth_context.dfy` (`AuthContext`): `class AuthStore` with the fields
  `users`, `session`, `requests` and `nearbyCompanies`. `session`, `requests`
  and `nearbyCompanies` are the provider's state variables; the first two are
  also what it saves to browser storage. `users` stands for the account list,
  which the source keeps only in browser storage and re-reads on every login,
  signup and contact lookup. Each method's `ensures` gives the new state as a
  function of the old one.
- `company_portal.dfy` (`CompanyPortal`): the company view and its counters, and
  the status-gated buttons (`Offered`). It proves the request lifecycle and
  holds `class CompanyDashboard` with the button handlers.
- `customer_portal.dfy` (`CustomerPortal`): the per-customer view and its
  counters, the submit guard, and `class CustomerDashboard` with the form state.

Inputs that the source takes from the browser are parameters here:

- generated ids and timestamps (`Date.now()`, `new Date().toISOString()`);
- the five random distances of the locator;
- the stored session and ledger that the store loads at start-up;
- the stored account list, given once to the constructor as `users`.

Records are addressed by id:

- `updateRequestStatus` rewrites **every** record whose id matches, and
  `deleteWasteRequest` removes **every** such record.
- Ids are clock readings, so they are not guaranteed unique.
  `CompanyPortal.CollidingIdsRegress` shows what this does to the lifecycle:
  accepting a pending request also moves a completed request with the same id
  back to `accepted`. The lifecycle theorems therefore assume a ledger with
  unique ids (`Ledger.UniqueIds`).

## Model

| member | source | states |
|---|---|---|
| `Registry.Find` | src/contexts/AuthContext.tsx:126 | The result is the position of the first account matching the query, or none exactly when no account matches. The query is email and role for login, email for signup, id for the contact lookup. Emails are compared exactly. |
| `Registry.UnknownEmailCannotLogin` | src/contexts/AuthContext.tsx:126-147 | An email that signup would accept as fresh matches no account under any role at login. |
| `Registry.FoundAfterSignup` | src/contexts/AuthContext.tsx:147-172 | After a fresh email is appended, it is found by email at the new last position. Login finds it under its own role and not under the other role. |
| `Registry.SignupKeepsEmailsDistinct` | src/contexts/AuthContext.tsx:147-159 | Appending an account with an unregistered email keeps registry emails pairwise distinct. |
| `Registry.LoginMatchIsUnique` | src/contexts/AuthContext.tsx:126-137 | With distinct emails, login picks the one account with that email and role. |
| `Registry.Public` | src/contexts/AuthContext.tsx:129-136 | The session value has the account's id, email, role, name, phone and address, and no password. The account matches the session's email and role, and the session's id. Which account a search returns is left to `Find`; under distinct emails `LoginMatchIsUnique` gives it. |
| `Ledger.NewRequest` | src/contexts/AuthContext.tsx:185-193 | The new record has the given id and timestamp, status pending, the user's id, name and email, and exactly the submitted fields. |
| `Ledger.AddRequest` | src/contexts/AuthContext.tsx:182-196 | With no customer session the ledger is unchanged. Otherwise one record is added at the end and the earlier records are kept. The new record has the given id and timestamp, status pending, the session's id, name and email, and exactly the submitted fields. |
| `Ledger.WithStatus` | src/contexts/AuthContext.tsx:198-204 | Length and positions are kept. Every record with the id has only its status replaced. Every other record is unchanged. |
| `Ledger.WithStatusIdempotent` | src/contexts/AuthContext.tsx:198-204 | Repeating the same status update changes nothing more. |
| `Ledger.WithStatusAbsent` | src/contexts/AuthContext.tsx:198-204 | A status update for an id no record has is a no-op. |
| `Ledger.Without` | src/contexts/AuthContext.tsx:206-208 | No record with the id remains. Every other record remains, with its multiplicity. The ledger shrinks when some record has the id. |
| `Ledger.WithoutAppend` | src/contexts/AuthContext.tsx:206-208 | Removal distributes over concatenation, so the surviving records keep their relative order. |
| `Ledger.WithoutAbsent` | src/contexts/AuthContext.tsx:206-208 | Removing an id no record has leaves the ledger as it was. |
| `Ledger.WithoutKeepsUniqueIds` | src/contexts/AuthContext.tsx:206-208 | Removal keeps a ledger's ids unique. |
| `Ledger.OwnedBy` | src/components/CustomerDashboard.tsx:25 | It holds exactly the ledger records with the given customer id. |
| `Ledger.OwnedByAppend` | src/components/CustomerDashboard.tsx:25 | The customer filter distributes over concatenation, so the customer's records stay in ledger order. |
| `Ledger.CountStatus` | src/components/CompanyDashboard.tsx:101-113 | A status count is at most the number of records. It is zero exactly when no record has that status. `CountStatusSingle` and `CountStatusAppend` pin its value. |
| `Ledger.StatusCountsSum` | src/components/CompanyDashboard.tsx:95-113 | The pending, accepted and completed counts add up to the number of records. |
| `Ledger.CountStatusSingle` | src/components/CompanyDashboard.tsx:101-113 | One record counts 1 under its own status and 0 under the others. |
| `Ledger.CountStatusAppend` | src/components/CompanyDashboard.tsx:101-113 | Counting distributes over concatenation. With `CountStatusSingle` this fixes every count as the number of records that have the status. |
| `Ledger.OwnedByCountBounded` | src/components/CustomerDashboard.tsx:141-147 | A customer's records with a status are at most the ledger's records with that status. |
| `Locator.Catalog` | src/contexts/AuthContext.tsx:58-94 | Five companies in written order, each with its drawn distance, ids pairwise distinct, ratings 4.5 to 4.9 stars and three services each. |
| `Locator.Insert` | src/contexts/AuthContext.tsx:97-99 | Inserting into a list sorted by distance keeps it sorted and adds exactly that company. |
| `Locator.SortByDistance` | src/contexts/AuthContext.tsx:97-99 | The result is sorted by non-decreasing distance and is a permutation of the input. |
| `Locator.Nearby` | src/contexts/AuthContext.tsx:58-101 | The published list has five entries. It is sorted by non-decreasing distance and is a permutation of the catalogue. |
| `Locator.CatalogIds` | src/contexts/AuthContext.tsx:58-94 | The catalogue's ids are exactly 1 to 5. |
| `Locator.NearbyListsCatalog` | src/contexts/AuthContext.tsx:58-101 | The list holds exactly the catalogue's companies, so its ids are exactly 1 to 5. |
| `Locator.LocationIgnored` | src/contexts/AuthContext.tsx:55-101 | The location argument does not affect the list. |
| `Locator.NearestWithinReach` | src/contexts/AuthContext.tsx:62-99 | With distances in their drawn ranges, the first company listed is at most 2.5 km away. |
| `AuthContext.AuthStore.constructor` | src/contexts/AuthContext.tsx:105-116 | A stored session and ledger are taken over. Absent ones give no session and an empty ledger. |
| `AuthContext.AuthStore.Login` | src/contexts/AuthContext.tsx:123-142 | It succeeds iff some account has exactly this email and role. The password plays no part. On success the session is the first match's public fields. On failure the session is unchanged. Registry and ledger are untouched. |
| `AuthContext.AuthStore.Signup` | src/contexts/AuthContext.tsx:144-175 | If the email is registered under any role, it fails and leaves registry and session unchanged. Otherwise it appends exactly one account (with the password) at the end, and the session becomes its public fields. Distinct emails stay distinct. |
| `AuthContext.AuthStore.Logout` | src/contexts/AuthContext.tsx:177-180 | The session is empty afterwards. Registry and ledger are untouched. |
| `AuthContext.AuthStore.AddWasteRequest` | src/contexts/AuthContext.tsx:182-196 | The ledger becomes `AddRequest` of the old ledger and the session. That is a no-op unless a customer is logged in. |
| `AuthContext.AuthStore.UpdateRequestStatus` | src/contexts/AuthContext.tsx:198-204 | The ledger becomes `WithStatus` of the old one. Only `accepted` and `completed` are accepted as the new status. |
| `AuthContext.AuthStore.DeleteWasteRequest` | src/contexts/AuthContext.tsx:206-208 | The ledger becomes `Without` of the old one. |
| `AuthContext.AuthStore.UpdateNearbyCompanies` | src/contexts/AuthContext.tsx:55-102 | The company list becomes the ranked catalogue for the drawn distances. Nothing else changes. |
| `CompanyPortal.AvailableRequests` | src/components/CompanyDashboard.tsx:16 | The company view is the whole ledger, unfiltered and in ledger order. |
| `CompanyPortal.CustomerViewsIncluded` | src/components/CompanyDashboard.tsx:16 | Every record a customer sees is also in the company view. |
| `CompanyPortal.Stats` | src/components/CompanyDashboard.tsx:92-115 | Total is the number of requests in the ledger. Pending, accepted and completed are each the count of requests with that status, and they sum to the total. |
| `CompanyPortal.Offered` | src/components/CompanyDashboard.tsx:218-301 | Accept is shown iff the request is pending, Mark Complete iff accepted, Delete iff completed. Contact Customer is always shown. |
| `CompanyPortal.Click` | src/components/CompanyDashboard.tsx:219-294 | A shown Accept turns the pending card's request accepted, a shown Mark Complete turns the accepted one completed, each keeping the ledger's length. A shown Delete on a completed request shrinks the ledger and leaves no record with its id. Contact leaves the ledger unchanged. |
| `CompanyPortal.WithStatusKeepsUniqueIds` | src/contexts/AuthContext.tsx:198-204 | A status update keeps a ledger's ids unique. |
| `CompanyPortal.WithStatusStage` | src/contexts/AuthContext.tsx:198-204 | On a ledger with unique ids, updating an existing id puts that request at the new status's stage. Every other request's stage is unchanged. |
| `CompanyPortal.WithoutStage` | src/contexts/AuthContext.tsx:206-208 | On a ledger with unique ids, removal puts that id at the removed stage. Every other request's stage is unchanged. |
| `CompanyPortal.ClickAdvancesOneStage` | src/components/CompanyDashboard.tsx:219-301 | On a ledger with unique ids, a shown Accept, Mark Complete or Delete moves its own request exactly one stage forward (pending → accepted → completed → removed). Every other request stays put, and ids stay unique. |
| `CompanyPortal.RunNeverRegresses` | src/components/CompanyDashboard.tsx:219-301 | On a ledger with unique ids, any sequence of presses on shown buttons never moves a request backwards. Each press moves it at most one stage. |
| `CompanyPortal.CollidingIdsRegress` | src/contexts/AuthContext.tsx:198-204 | Take a pending request and a completed request with the same id. A shown Accept on the pending one sets the completed one back to accepted. |
| `CompanyPortal.CustomerContact` | src/components/CompanyDashboard.tsx:48-53 | The contact is the first registry account whose id is the request's customer id, or nothing exactly when no account has that id. |
| `CompanyPortal.CompanyDashboard.constructor` | src/components/CompanyDashboard.tsx:12-13 | The dashboard starts with no selected customer. |
| `CompanyPortal.CompanyDashboard.HandleAcceptRequest` | src/components/CompanyDashboard.tsx:36-38 | The ledger's records with the id become accepted. |
| `CompanyPortal.CompanyDashboard.HandleCompleteRequest` | src/components/CompanyDashboard.tsx:40-42 | The ledger's records with the id become completed. |
| `CompanyPortal.CompanyDashboard.HandleDeleteRequest` | src/components/CompanyDashboard.tsx:44-46 | The ledger's records with the id are removed. |
| `CompanyPortal.CompanyDashboard.HandleContactCustomer` | src/components/CompanyDashboard.tsx:48-53 | The selected customer becomes the contact lookup result. |
| `CompanyPortal.CompanyDashboard.PressButton` | src/components/CompanyDashboard.tsx:218-301 | Pressing a shown button on a card applies that button's store operation to the card's request id. Contact sets the selected customer and leaves it alone otherwise. |
| `CustomerPortal.Submittable` | src/components/CustomerDashboard.tsx:47 | The submit guard: waste type, quantity and location are all non-empty. Description and images are not looked at. |
| `CustomerPortal.SubmitIgnoresOptionalFields` | src/components/CustomerDashboard.tsx:47 | Whether a form can be submitted does not depend on its description or images. |
| `CustomerPortal.CustomerRequests` | src/components/CustomerDashboard.tsx:25 | It holds exactly the ledger records whose customer id is the session user's id, and nothing without a session. |
| `CustomerPortal.CustomerRequestsAppend` | src/components/CustomerDashboard.tsx:25 | The view distributes over concatenation, so it keeps ledger order. |
| `CustomerPortal.Stats` | src/components/CustomerDashboard.tsx:132-149 | The counters are over the session customer's own view. Total is its length; pending and completed are each the count of its requests with that status. Their sum is at most the total, and the rest are the accepted requests. |
| `CustomerPortal.CustomerStatsBounded` | src/components/CustomerDashboard.tsx:132-149 | A customer's total, pending and completed counters are at most the ledger's. |
| `CustomerPortal.SubmitGrowsView` | src/components/CustomerDashboard.tsx:45-48 | A submit by a logged-in customer adds exactly one pending record, carrying the form, at the end of that customer's view. |
| `CustomerPortal.NonCustomerSubmitAddsNothing` | src/contexts/AuthContext.tsx:183 | Without a customer session, adding a request leaves every view unchanged. |
| `CustomerPortal.CustomerDashboard.constructor` | src/components/CustomerDashboard.tsx:16-23 | The form starts hidden and empty. |
| `CustomerPortal.CustomerDashboard.OpenForm` | src/components/CustomerDashboard.tsx:117 | The form is shown. |
| `CustomerPortal.CustomerDashboard.CancelForm` | src/components/CustomerDashboard.tsx:261 | The form is hidden. What was typed stays. |
| `CustomerPortal.CustomerDashboard.SetWasteType` | src/components/CustomerDashboard.tsx:172 | Only the waste type field changes. |
| `CustomerPortal.CustomerDashboard.SetQuantity` | src/components/CustomerDashboard.tsx:194 | Only the quantity field changes. |
| `CustomerPortal.CustomerDashboard.SetLocation` | src/components/CustomerDashboard.tsx:206 | Only the location field changes. |
| `CustomerPortal.CustomerDashboard.SetDescription` | src/components/CustomerDashboard.tsx:217 | Only the description field changes. |
| `CustomerPortal.CustomerDashboard.HandleSubmit` | src/components/CustomerDashboard.tsx:45-58 | With waste type, quantity and location non-empty, the form goes to `AddWasteRequest`, then resets to all-empty with no images and is hidden. Otherwise ledger, form and visibility are unchanged. |

## Left out

- Browser storage and JSON: the `localStorage` reads and writes, and the effect that saves the ledger after each change, are replaced by the store's fields. The registry is a field instead of being re-read from storage on every login, signup and contact lookup. Corrupt stored JSON is not modelled.
- Clock values: ids and `createdAt` timestamps are parameters.
- Locator arithmetic: `Math.random`, `toFixed` and `parseFloat` are floating point. Distances are given as whole tenths of a kilometre, and ratings as tenths of a star. The formatted `"x.y km"` string is not modelled.
- `Locator.Nearby`: the order of companies at equal distance is not stated. The insertion sort used is stable, but only sortedness and the permutation are proved.
- `CompanyPortal.ClickAdvancesOneStage`: stated only for ledgers with unique ids. With colliding ids the lifecycle fails, as `CompanyPortal.CollidingIdsRegress` shows.
- `CompanyPortal.RunNeverRegresses`: stated only for ledgers with unique ids, for the same reason. It covers company button presses only, not interleaved customer submits.
- The `async` wrappers of `login` and `signup` have no suspension point. They are modelled as synchronous calls.
- Image upload in the customer form is asynchronous file reading, so it is not modelled. The `images` field of the form changes only through submit's reset.
- The nearby-companies panel's geolocation permission flow is browser callbacks and is not part of this model. The same goes for the login/signup page, which only reads form fields and shows error text, and for the role-based page routing.
- Rendering is not modelled: badges, icons, colours, dialogs, and the error raised when the store is used outside its provider.
