# EcoNexus client: lifecycle dashboards, session and dialogs

This project models the statable logic of the EcoNexus web client, a React front end that tracks
RFID-tagged products through their lifecycle (registered, pending pickup, collected, processing,
recycled) for companies, customers and admins. The model covers:

- **Customer dashboard** (`CustomerDashboard`): the three status buckets (active, pending pickup,
  collected), the earned and pending reward totals at a flat 12% of the price, the `stats` record
  with the earned total rounded to hundredths, and the status badge's label.
- **Company dashboard** (`CompanyDashboard`): its own three buckets (active, in market, collected),
  the `stats` record, the case-insensitive search over name, RFID, category and material, the
  "In Lifecycle" tab count, the status badge with its colour fallback, and the first-five "Recent
  Products" list.
- **Shared product record** (`Lifecycle`): the product fields the dashboards read, the six status
  strings, and the active-bucket rule that both dashboards share.
- **Login page and session store** (`Session`): `sessionStorage` as a class over a string map; the
  login page as a class whose fields are its form state and request flags; `clearUserData`,
  `getUserEmail` and `getUserRole`; the writes of the three login success handlers, with their
  fallback chains for the stored identity; the registration success resets; and the submit dispatch.
- **Router** (`App`): the role it holds, the mount and event re-reads of the stored role, the login
  redirect table, logout, and which page each (role, path) pair shows. The methods `CustomerSignIn`,
  `CompanySignIn` and `AdminSignIn` run a login success handler and then the router's `onLogin`.
- **Add-product dialog** (`AddProduct`) and **bulk-upload dialog** (`BulkUpload`): their state as
  classes, the email-fill effect, the submit guards, the reply check, the form reset, the file-name
  check, the upload guard, the always-failing upload request and the dialog reset.

Network requests are not modelled. Each request's outcome is a parameter of type `Result`, and the
method that handles it (`CustomerLoginSettled`, `CreateSettled`, `UploadSettled`, ...) follows the
source's `onSuccess` and `onError` branches. "Today" and parsed prices are inputs. Prices are `real`.

Where the code and the prose description of the system disagree, the model follows the code:

- A status outside the six known strings falls into no bucket on either dashboard. It does not fall
  back to the active bucket. So the bucket sizes sum to at most the number of products, with
  equality exactly when every status is known (`CustomerDashboard.BucketSizes`,
  `CompanyDashboard.StatsOf`). Only the customer badge labels such a product "Active"
  (`CustomerDashboard.UnknownStatusLabelledActiveButUncounted`).
- The two dashboards group "Collected" differently. The customer side counts it as collected and
  the company side counts it as in market. Both rules are modelled separately
  (`CompanyDashboard.CollectedStatusDisagreement`). They still cover the same products overall
  (`CompanyDashboard.DashboardsAgreeOnLifecycleTotal`).
- `Math.round` rounds halves upwards (towards +infinity), so the rounding is `floor(100x + 1/2) / 100`.

After `handleLogin` sets the role, it dispatches `userRoleChanged` synchronously. The router's own
listener then sets the role again from the store, and that later setter wins. The model runs both
steps, so after a login the router's role is the stored role. The stored role is the one just
logged in (`App.CustomerSignIn` and its siblings).

## Model

| member | source | states |
|---|---|---|
| `Lifecycle.NoUnknownIffAllKnown` | client/src/pages/CustomerDashboard.tsx:75-85 | No product is left out of every bucket exactly when every status is one of the six known ones (or absent). |
| `CustomerDashboard.StatusPlacement` | client/src/pages/CustomerDashboard.tsx:75-85 | Absent, empty, "Registered" and "Active" go to the active bucket only; "Pending Pickup" goes to pending only; "Collected", "Processing" and "Recycled" go to collected only; any other status goes to no bucket. |
| `CustomerDashboard.BucketsDisjoint` | client/src/pages/CustomerDashboard.tsx:75-85 | No product is in two of the three buckets. |
| `CustomerDashboard.BucketsPartition` | client/src/pages/CustomerDashboard.tsx:75-85 | The three buckets plus the unknown-status products are, as a multiset, exactly the product list. |
| `CustomerDashboard.BucketSizes` | client/src/pages/CustomerDashboard.tsx:75-85 | The bucket lengths sum to at most the number of products, with equality iff every status is known. |
| `CustomerDashboard.BucketsAreSubsequences` | client/src/pages/CustomerDashboard.tsx:75-85 | Each bucket is an order-preserving subsequence of the products. |
| `CustomerDashboard.Reward` | client/src/pages/CustomerDashboard.tsx:88-90 | A missing or zero price contributes 0; a non-negative price contributes between 0 and the price. |
| `CustomerDashboard.RewardSumAppend` | client/src/pages/CustomerDashboard.tsx:93-95 | Summing the concatenation of two lists gives the sum of their sums. |
| `CustomerDashboard.RewardSumNonNegative` | client/src/pages/CustomerDashboard.tsx:88-95 | With no negative price, the reduced sum is non-negative. |
| `CustomerDashboard.RewardSumPermutation` | client/src/pages/CustomerDashboard.tsx:88-95 | The reduced sum does not depend on list order: permutations have equal sums. |
| `CustomerDashboard.RewardsPartition` | client/src/pages/CustomerDashboard.tsx:87-95 | Earned plus pending plus the unknown-status products' rewards equals the rewards of all products, so an unknown status adds to neither total. |
| `CustomerDashboard.RewardsNonNegative` | client/src/pages/CustomerDashboard.tsx:88-95 | Earned and pending rewards are both non-negative when no price is negative. |
| `CustomerDashboard.RewardsOrderIndependent` | client/src/pages/CustomerDashboard.tsx:88-95 | Reordering the product list changes neither the earned nor the pending total. |
| `CustomerDashboard.RoundToCents` | client/src/pages/CustomerDashboard.tsx:101 | The rounded value is a whole number of hundredths, strictly above x - 0.005 and at most x + 0.005 (halves round up), and non-negative for non-negative x. |
| `CustomerDashboard.RoundWholeCents` | client/src/pages/CustomerDashboard.tsx:101 | Rounding leaves a value that is already whole hundredths unchanged. |
| `CustomerDashboard.StatsOf` | client/src/pages/CustomerDashboard.tsx:97-102 | registeredProducts, collected and pendingPickup are the bucket lengths, which sum to at most the product count (equal iff all statuses are known); totalRewards is the earned total rounded to hundredths. |
| `CustomerDashboard.BadgeLabel` | client/src/pages/CustomerDashboard.tsx:224-261 | The label is the status for "Pending Pickup", "Collected", "Processing" and "Recycled", and "Active" for anything else, including absent. |
| `CustomerDashboard.UnknownStatusLabelledActiveButUncounted` | client/src/pages/CustomerDashboard.tsx:254-260 | A product with an unknown status is labelled "Active" but sits in no bucket. |
| `CustomerDashboard.TwoProductExample` | client/src/pages/CustomerDashboard.tsx:88-102 | A price-100 active product and a price-200 recycled product give 24 earned, 12 pending and a total of 24. |
| `CompanyDashboard.BucketsDisjoint` | client/src/pages/CompanyDashboard.tsx:63-73 | The active, in-market and collected buckets are pairwise disjoint, and each is an order-preserving subsequence of the products. |
| `CompanyDashboard.BucketsPartition` | client/src/pages/CompanyDashboard.tsx:63-73 | The three buckets plus the unknown-status products are, as a multiset, exactly the product list. |
| `CompanyDashboard.StatsOf` | client/src/pages/CompanyDashboard.tsx:83-88 | totalProducts is the product count; it is at least active + inMarket + collected, with equality iff every status is known. |
| `CompanyDashboard.InLifecycleCountIsLifecycleProducts` | client/src/pages/CompanyDashboard.tsx:208-210 | The "In Lifecycle" count equals the number of products whose status is "Pending Pickup", "Collected", "Processing" or "Recycled". |
| `CompanyDashboard.DashboardsAgreeOnLifecycleTotal` | client/src/pages/CompanyDashboard.tsx:67-73 | Company in-market + collected equals customer pending-pickup + collected, for any product list. |
| `CompanyDashboard.CollectedStatusDisagreement` | client/src/pages/CompanyDashboard.tsx:67-69 | A "Collected" product is collected on the customer side but in market on the company side. |
| `CompanyDashboard.SearchIff` | client/src/pages/CompanyDashboard.tsx:76-81 | A product passes the search iff it is in the list and the lower-cased query occurs in its lower-cased name, RFID, category or material. |
| `CompanyDashboard.EmptySearchKeepsAll` | client/src/pages/CompanyDashboard.tsx:76-81 | An empty query keeps every product, in order. |
| `CompanyDashboard.SearchKeepsOrder` | client/src/pages/CompanyDashboard.tsx:76-81 | The filtered list is an order-preserving subsequence of the products. |
| `CompanyDashboard.SearchIgnoresQueryCase` | client/src/pages/CompanyDashboard.tsx:76-81 | Lower-casing the query first does not change the result. |
| `CompanyDashboard.StatusBadge` | client/src/pages/CompanyDashboard.tsx:90-105 | The text is the status, or "Active" when it is absent or empty; a known text gets its own colour class and any other text gets the grey fallback. |
| `CompanyDashboard.BadgeColorIffKnown` | client/src/pages/CompanyDashboard.tsx:90-101 | The badge gets a colour other than the grey fallback iff the status is known. |
| `CompanyDashboard.RecentProducts` | client/src/pages/CompanyDashboard.tsx:241 | The list shows min(5, n) products, and they are the first ones, in order. |
| `Session.GetUserEmail` | client/src/pages/LoginPage.tsx:965-967 | Returns exactly the stored `userEmail`, or none when the key is absent. |
| `Session.GetUserRole` | client/src/pages/LoginPage.tsx:969-971 | Returns exactly the stored `userRole`, whatever string it is, or none when the key is absent. |
| `Session.ClearUserData` | client/src/pages/LoginPage.tsx:973-976 | Removes `userEmail` and `userRole` and keeps every other entry. |
| `Session.LoggedIn` | client/src/pages/LoginPage.tsx:558-563 | After clearing and the two writes, the store has the old keys plus the two session keys, holding the identity and the role; other entries are unchanged. |
| `Session.SessionEmail` | client/src/pages/LoginPage.tsx:560 | The stored email is the account email if it is non-empty, else the reply's email if non-empty, else the typed email. |
| `Session.AdminSessionId` | client/src/pages/LoginPage.tsx:665 | The stored admin identity is adminId if non-empty, else admin_id if non-empty, else "admin_001". It is never empty. |
| `Session.LoginPage.constructor` | client/src/pages/LoginPage.tsx:527-543 | The page starts in sign-in mode with empty fields and no request in flight. |
| `Session.LoginPage.HandleCustomerSubmit` | client/src/pages/LoginPage.tsx:685-692 | Sends a registration iff in sign-up mode, otherwise a login, with the typed email and password (and the name when registering). |
| `Session.LoginPage.HandleCompanySubmit` | client/src/pages/LoginPage.tsx:694-707 | Sends a company registration iff in sign-up mode, otherwise a login, with the typed fields. |
| `Session.LoginPage.HandleAdminSubmit` | client/src/pages/LoginPage.tsx:709-712 | Always sends an admin login, whatever the sign-up mode. |
| `Session.LoginPage.CustomerLoginSettled` | client/src/pages/LoginPage.tsx:552-578 | On success the store becomes the old store minus the session keys, plus the chosen email and role "customer". On failure the store is unchanged. |
| `Session.LoginPage.CompanyLoginSettled` | client/src/pages/LoginPage.tsx:604-631 | Same as the customer login, with the company account's email and the role "company". |
| `Session.LoginPage.AdminLoginSettled` | client/src/pages/LoginPage.tsx:657-683 | Same, with the admin id chain and the role "admin". |
| `Session.LoginPage.CustomerRegisterSettled` | client/src/pages/LoginPage.tsx:581-601 | On success it leaves sign-up mode and clears only the customer password. The store is not in its frame. |
| `Session.LoginPage.CompanyRegisterSettled` | client/src/pages/LoginPage.tsx:634-654 | On success it leaves sign-up mode and clears only the company password. |
| `App.Route` | client/src/App.tsx:76-120 | Without a role the login page shows whatever the path. A dashboard is shown only to its own role, and only on its own path or "/". |
| `App.DashboardPathGuard` | client/src/App.tsx:99-109 | "/company", "/customer" and "/admin" show their dashboard iff the held role matches, otherwise NotFound. |
| `App.RootShowsOwnDashboard` | client/src/App.tsx:113-117 | "/" shows exactly the current role's dashboard. |
| `App.UnmatchedPathNotFound` | client/src/App.tsx:119 | A path that no route names shows NotFound. |
| `App.Router.constructor` | client/src/App.tsx:23-30 | On mount the role is read from the session store. |
| `App.Router.CheckUserRole` | client/src/App.tsx:24-27 | On a storage or userRoleChanged event the role becomes the stored role again. |
| `App.Router.HandleLogin` | client/src/App.tsx:44-57 | Afterwards the role is the stored role and the location is the role's dashboard path. |
| `App.Router.HandleLogout` | client/src/App.tsx:59-74 | The session keys and the query cache are cleared, the role is none, the location is "/login", and the login page shows. |
| `App.CustomerSignIn` | client/src/pages/LoginPage.tsx:557-569 | A customer login followed by onLogin leaves role "customer" at "/customer", which shows the customer dashboard. |
| `App.CompanySignIn` | client/src/pages/LoginPage.tsx:609-622 | A company login followed by onLogin leaves role "company" at "/company", which shows the company dashboard. |
| `App.AdminSignIn` | client/src/pages/LoginPage.tsx:662-674 | An admin login followed by onLogin leaves role "admin" at "/admin", which shows the admin dashboard. |
| `AddProduct.BlankForm` | client/src/components/AddProductDialog.tsx:72-81 | Every field is empty except company_email, which is the given email, and manufacture_date, which is today. |
| `AddProduct.CheckCreateReply` | client/src/components/AddProductDialog.tsx:54-60 | The create succeeds iff the status is "success". On failure the error is detail, else message, else "Failed to create product", and it is never empty. |
| `AddProduct.AddProductDialog.constructor` | client/src/components/AddProductDialog.tsx:26-41 | The dialog starts closed, with a blank form dated today. |
| `AddProduct.AddProductDialog.FillCompanyEmail` | client/src/components/AddProductDialog.tsx:44-51 | When the dialog is open, the role is company and an email is stored, company_email becomes that email and nothing else changes. Otherwise the form is unchanged. |
| `AddProduct.AddProductDialog.SetOpen` | client/src/components/AddProductDialog.tsx:118 | Opening or closing the dialog runs the email-fill effect. |
| `AddProduct.AddProductDialog.HandleSubmit` | client/src/components/AddProductDialog.tsx:92-115 | A non-company role is rejected first, then a missing email. Only when both pass is the form sent, unchanged. With the button enabled, the form is sent iff the role is company. |
| `AddProduct.AddProductDialog.CreateSettled` | client/src/components/AddProductDialog.tsx:61-82 | After a passing reply the dialog closes and the form is blank, keeping the stored email (or "") and today's date. Otherwise nothing changes. |
| `BulkUpload.SpreadsheetNameIff` | client/src/components/BulkUploadDialog.tsx:214 | A name passes iff it is some stem followed by ".csv" or ".xlsx". |
| `BulkUpload.BulkUploadDialog.constructor` | client/src/components/BulkUploadDialog.tsx:165-169 | No file, not uploading, 0%, no success, closed. |
| `BulkUpload.BulkUploadDialog.HandleFileChange` | client/src/components/BulkUploadDialog.tsx:211-225 | A spreadsheet becomes the file and clears success. Any other selection leaves file and success unchanged. |
| `BulkUpload.BulkUploadDialog.HandleUpload` | client/src/components/BulkUploadDialog.tsx:227-238 | Does nothing unless there is a file and a stored email. Otherwise it sets uploading and 0% and sends the file with the email. |
| `BulkUpload.BulkUploadDialog.UploadSettled` | client/src/components/BulkUploadDialog.tsx:186-208 | Success stops uploading at 100% with success set. Failure only stops uploading. |
| `BulkUpload.BulkUploadDialog.Upload` | client/src/components/BulkUploadDialog.tsx:173-177 | Because the request always fails, an upload never changes success. When it runs, it ends not uploading at 0%. |
| `BulkUpload.BulkUploadDialog.ResetDialog` | client/src/components/BulkUploadDialog.tsx:262-268 | No file, no success, 0%, not uploading, closed. |

The predicates `Session.LoginPage.IsLoading` (the OR of the five request flags,
client/src/pages/LoginPage.tsx:714-719) and `AddProduct.AddProductDialog.SubmitDisabled` (a
pending create or no stored email, client/src/components/AddProductDialog.tsx:253) are definitions.
`HandleSubmit`'s contract relates the second one to the submit guards.

## Left out

- Network I/O: the `fetch` wrapper in client/src/lib/api.ts and `apiRequest` in the login page. Each request's outcome is a `Result` parameter of the method that handles it.
- The server's reward endpoint (`calculateReward`), `handleScanComplete` and `handleAddProduct` on the customer dashboard. They are asynchronous network choreography.
- React Query caching, invalidation, refetching and the timing of `isPending`. The request flags are fields that no modelled method sets. The query cache is only a set of keys, which logout empties.
- JSX, icons, toasts and their messages, the `setTimeout` that closes the bulk dialog after a success, and `downloadTemplate`. Of the CSS, only the company badge's colour classes are modelled, because its fallback is a stated rule.
- The text-field `onChange` setters of the forms and the sign-up toggle. They are plain assignments to the fields.
- Date handling and `parseFloat`: "today" and prices are inputs. IEEE floating-point error in `price * 0.12` and `Math.round` is not reproduced; the model uses reals.
- `CompanyDashboard.SearchIff`: `toLowerCase` is modelled on ASCII letters only; Unicode case mapping is not.
- `CompanyDashboard.StatusBadge`: the colour table is a map. JavaScript's inherited object keys (a status of "constructor", say) would find a non-string entry; the model does not capture that.
- `App.Route`: paths are compared as exact strings, and "/product/:id" is a non-empty segment without '/'. The router library's tolerance of a trailing slash and of letter case is not modelled.
- `handleLogin` also notifies other components through the `userRoleChanged` event; only the router's own listener is modelled.
- The product fields the modelled code never reads (`_id`, `TXN`, size, batch number, dates, company email) are not part of `Lifecycle.Product`.
- The component-local `clearUserData` at client/src/pages/LoginPage.tsx:546-549 does the same as the exported one, so it is modelled once, as `Session.ClearUserData`.
- The commented-out legacy code at the top of the login page and of the bulk-upload dialog.
- In the live bulk-upload dialog, the file input and the upload button are rendered disabled, so no user action reaches `handleFileChange` or `handleUpload`. The handlers are modelled as written.
- The admin dashboard, product details and not-found pages are outside this model. The router only names which of them it shows.
