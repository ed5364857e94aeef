# ReCircuit in Dafny

ReCircuit is a Next.js web application for selling and donating used
electronics. A user photographs an item list. The page uploads the photo,
recognises its text and stores a submission. Individuals and organisations
sell and donate; NGOs post donation requests instead. Listings are graded with
a random grade and, for sales, a random price from the grade's band. A
dashboard counts a user's listings, sales and donations.

This project models the logic these pages hold. Each page's handlers become a
class whose fields are the React state the handler updates. The Firebase
collections a handler writes become fields of that class: a sequence of
records, or a map from document id to document. Everything a page only
computes becomes a function.

- `AuthContext` covers identity resolution (`src/context/AuthContext.tsx`):
  - role normalisation, and the user record built from the session and profile;
  - the `loading` flag and `logout`.
- `SellPage` covers the sell page (`src/app/sell/page.tsx`):
  - the OCR line parser `parseItems`;
  - the regular expression `/(.*?)(\d+)\s*$/`, modelled to the letter, with
    JavaScript's leftmost, lazy and greedy match choice;
  - the submit guard and pipeline, and the reset.
- `MyListings` covers the listings page (`src/app/my-listings/page.tsx`):
  - the snapshot defaults;
  - the processing step, with its grades and price bands;
  - delete, the shared `busyId`, and the price and badge display.
- `Dashboard` covers `src/app/dashboard/page.tsx`:
  - activity rows and the four counts;
  - the five newest activities;
  - the NGO request form and fetch, and the page gates.
- `Transactions` covers `src/app/transaction/page.tsx`:
  - the field defaults, read in a `forEach` loop;
  - the pending/done split;
  - the `loadingData` flag.
- `DonatePage` covers `src/app/donate/page.tsx`: the NGO gate, the submit guard, the stored record and the reset.
- `Navbar`, `Sidebar` and `AppShell` cover the three layout components in `src/components`: route and role gating, fallbacks and the panel flag.
- `RoleGating` states the cross-page rule: an NGO is never offered a way to donate.
- Shared modules:
  - `Wrappers` holds `Option`.
  - `Seqs` models `Array.prototype.map` and `filter`, plus a query `limit`.
  - `Text` models `trim`, `split`, `parseInt` on digits and ASCII case mapping.
  - `Backend` holds the stored document shapes and the upload path.

Service calls are parameters, because their outcomes cannot be known in
advance:
- each `await` that may throw is a success flag or an `Option` result;
- the recognised text is a string input;
- `Math.random` is a grade index and a price draw;
- the clocks are timestamps.

## Model

| member | source | states |
|---|---|---|
| AuthContext.NormaliseRole | src/context/AuthContext.tsx:54-58 | a string field is lower-cased and compared with the three role names; anything else gives no role (stated by the NormaliseRole lemmas below) |
| AuthContext.NormaliseRoleExactly | src/context/AuthContext.tsx:54-58 | a role results exactly when the field is a string whose lower-case form is that role's name; missing and non-string fields give no role |
| AuthContext.NormaliseRoleIgnoresCase | src/context/AuthContext.tsx:54 | strings equal up to case normalise alike |
| AuthContext.NormaliseRoleIdempotent | src/context/AuthContext.tsx:54-58 | normalising a role's own name gives that role back, so normalising twice changes nothing |
| AuthContext.SignUpValuesNormalise | src/app/signup/page.tsx:117-119 | the sign-up values "Individual", "Organization", "NGO" become the three roles |
| AuthContext.UserFor | src/context/AuthContext.tsx:60-70 | uid from the session, email or ""; no profile gives no name and no role; the name is kept exactly when it is a string; the role is the normalised role |
| AuthContext.AuthProvider.constructor | src/context/AuthContext.tsx:32-33 | no user, `loading` true |
| AuthContext.AuthProvider.OnAuthStateChanged | src/context/AuthContext.tsx:40-75 | `loading` false after every callback; signed out gives no user; a fetched profile gives `UserFor`; a throwing fetch leaves the user |
| AuthContext.AuthProvider.Logout | src/context/AuthContext.tsx:80-85 | after sign-out the user is cleared and "/landing" pushed; `loading` is never turned back on |
| Backend.UploadPath | src/app/sell/page.tsx:71 | the path is the folder, "/", the uid, "/", then the decimal instant, "-" and the file name |
| Backend.UploadPathsDistinct | src/app/donate/page.tsx:61 | uploads of one file by one user at different instants get different paths |
| Text.Trim | src/app/sell/page.tsx:50 | the result has no white space at either end |
| Text.TrimShape | src/app/sell/page.tsx:50 | the input is white space, then the result, then white space |
| Text.TrimIdempotent | src/app/sell/page.tsx:50 | trimming twice is trimming once |
| Text.Split | src/app/sell/page.tsx:49 | at least one piece, and no piece holds the separator |
| Text.JoinSplit | src/app/sell/page.tsx:49 | rejoining the pieces with the separator restores the text |
| Text.SplitJoin | src/app/sell/page.tsx:49 | splitting separator-free pieces joined by the separator gives them back |
| Text.SplitCount | src/app/sell/page.tsx:49 | there is one piece more than there are separators |
| Text.SplitConcat | src/app/sell/page.tsx:49 | text on either side of a separator splits independently |
| Text.DecimalValue | src/app/sell/page.tsx:56 | `parseInt(ds, 10)` of a digit string; it reads back every rendered number and ignores leading zeros (stated by DecimalRoundTrip and DecimalLeadingZero) |
| Text.Decimal | src/app/sell/page.tsx:71 | `${Date.now()}`: at least one digit and nothing else, read back by `parseInt` as the same number (stated by its ensures and DecimalRoundTrip) |
| Text.DecimalRoundTrip | src/app/sell/page.tsx:56 | `parseInt` of a number's decimal digits is that number |
| Text.DecimalLeadingZero | src/app/sell/page.tsx:56 | a leading zero does not change the value parsed |
| Text.TrailingDigits | src/app/sell/page.tsx:53 | the maximal run of digits at the end of a string |
| Text.ToLower | src/context/AuthContext.tsx:54 | `toLowerCase` on ASCII letters; it is idempotent, and strings equal up to case normalise to the same role (stated by ToLowerIdempotent and AuthContext.NormaliseRoleIgnoresCase) |
| Text.ToUpper | src/components/sidebar.tsx:150 | `toUpperCase` on ASCII letters; the avatar letter is the upper-cased first character of the name (stated by Sidebar.Initial) |
| Text.ToLowerIdempotent | src/context/AuthContext.tsx:54 | lower-casing twice is lower-casing once |
| Seqs.Filter | src/app/transaction/page.tsx:178-179 | exactly the elements satisfying the test are kept, never more than the input |
| Seqs.FilterMultiset | src/app/transaction/page.tsx:178-179 | each kept element as often as in the input, every other element dropped |
| Seqs.FilterKeepsOrder | src/app/transaction/page.tsx:178-179 | the kept elements are a subsequence of the input |
| Seqs.FilterFilter | src/app/dashboard/page.tsx:181-186 | filtering by two tests in turn is filtering by both at once |
| Seqs.FilterDisjointLength | src/app/dashboard/page.tsx:181-201 | two filters whose tests exclude each other keep at most the whole input between them |
| Seqs.FilterKeepsPairwise | src/app/dashboard/page.tsx:211-216 | filtering keeps an ordering the input had |
| Seqs.Take | src/app/dashboard/page.tsx:216 | `limit(n)` keeps the first n elements, or all when fewer |
| SellPage.ParseLine | src/app/sell/page.tsx:52-57 | one trimmed line: group 1 trimmed and the value of group 2 on a match, the line with quantity 1 otherwise (stated by the lemmas below, against `Matches`) |
| SellPage.ParseItems | src/app/sell/page.tsx:47-59 | split on "\n", trim, drop empty lines, parse each (stated by the ParseItems lemmas below) |
| SellPage.PatternMatchesIff | src/app/sell/page.tsx:53 | the pattern matches a line exactly when the line, trimmed at the right, ends in a digit |
| SellPage.ChosenMatchExists | src/app/sell/page.tsx:53 | whenever the pattern matches there is the match JavaScript chooses: leftmost, then shortest group 1, then longest group 2 |
| SellPage.ChosenMatchIsParsed | src/app/sell/page.tsx:53-57 | for that match the item is group 1 trimmed and the value of group 2 |
| SellPage.NoMatchIsDefault | src/app/sell/page.tsx:55-56 | without a match the item is the line itself, quantity 1 |
| SellPage.ParseDigitEndedLine | src/app/sell/page.tsx:53-56 | a line P ++ D with D the maximal trailing digit run gives quantity value(D) and product trim(P), within the line's last terminator-free stretch |
| SellPage.ParseLineWithoutDigit | src/app/sell/page.tsx:52-56 | a trimmed line that does not end in a digit is the product, quantity 1 |
| SellPage.ParseDigitsOnlyLine | src/app/sell/page.tsx:53-56 | a digits-only line gives an empty product: nothing is validated |
| SellPage.ParseCountedLine | src/app/sell/page.tsx:53-56 | "name digits" gives that name and that number, and "item 0" gives quantity 0 |
| SellPage.ParseItemsOfLine | src/app/sell/page.tsx:48-58 | a single line yields no item when blank and exactly the parse of its trimmed form otherwise |
| SellPage.ParseItemsConcat | src/app/sell/page.tsx:48-58 | lines on either side of a "\n" are parsed independently and their items kept in input order |
| SellPage.ParseItemsOfBlank | src/app/sell/page.tsx:50-51 | text of white space without a line feed yields no item |
| SellPage.ParseItemsSkipsBlankLine | src/app/sell/page.tsx:51 | a white-space-only line adds no item |
| SellPage.ParseItemsBound | src/app/sell/page.tsx:47-59 | never more items than "\n"-separated lines |
| SellPage.ParseItemsProducts | src/app/sell/page.tsx:50-55 | every product is trimmed and has no line feed |
| SellPage.ParseLineProduct | src/app/sell/page.tsx:52-57 | a trimmed line without line feeds gives a trimmed product without line feeds |
| SellPage.PageView | src/app/sell/page.tsx:108-179 | the spinner exactly while auth loads; the sign-in prompt exactly when loaded without a user; otherwise the form before submission and the confirmation after it |
| SellPage.SellForm.SubmitEnabled | src/app/sell/page.tsx:291 | the button is enabled unless uploading, no file is chosen or the pickup location is empty |
| SellPage.SellForm.constructor | src/app/sell/page.tsx:26-33 | empty form, nothing submitted or uploading, nothing stored |
| SellPage.SellForm.ChooseFile | src/app/sell/page.tsx:37-40 | only the file changes |
| SellPage.SellForm.SetPickupLocation | src/app/sell/page.tsx:42-44 | only the pickup location changes |
| SellPage.SellForm.HandleSubmit | src/app/sell/page.tsx:61-98 | without a user or file nothing changes; otherwise `uploading` ends false, a blob is stored when the upload succeeds, and the record holding the parse of the recognised text is stored and `submitted` set exactly when every step succeeds |
| SellPage.SellForm.ResetForm | src/app/sell/page.tsx:100-106 | `submitted`, file and pickup location cleared, nothing else |
| SellPage.EnabledSubmitPassesGuard | src/app/sell/page.tsx:291 | the button is enabled exactly when not uploading, a file is chosen and a pickup location typed |
| MyListings.FromSnapshot | src/app/my-listings/page.tsx:72-87 | a missing status reads "Processing"; every present field is kept and every missing one stays missing |
| MyListings.ReadWrittenListing | src/app/my-listings/page.tsx:72-87 | reading a written listing gives it back |
| MyListings.ProcessUpdate | src/app/my-listings/page.tsx:100-124 | "Graded" completes at the instant; any other status grades A, B or C at the instant, priced exactly for sales and in the grade's band |
| MyListings.BandsAreExact | src/app/my-listings/page.tsx:113-117 | the draws reach exactly A 1200..1999, B 600..999, C 150..499 |
| MyListings.DonationHasNoPrice | src/app/my-listings/page.tsx:112-118 | grading a donation sets no price, whatever the grade |
| MyListings.ApplyUpdate | src/app/my-listings/page.tsx:101-104 | `updateDoc` replaces the named fields and keeps every other one |
| MyListings.ProcessedListing | src/app/my-listings/page.tsx:100-124 | a graded listing becomes Completed with grade, price and gradedAt unchanged; any other becomes Graded with a grade in A–C and a new gradedAt |
| MyListings.CompletedIsRegraded | src/app/my-listings/page.tsx:100-124 | a Completed listing is graded again and a second click completes it again |
| MyListings.PriceDisplay | src/app/my-listings/page.tsx:318-322 | a sale with a truthy price shows it, a sale without one a dash, a donation "Free" |
| MyListings.GradedSaleShowsPrice | src/app/my-listings/page.tsx:113-124 | a freshly graded sale shows a price from its band |
| MyListings.ActionLabel | src/app/my-listings/page.tsx:331 | "Complete" exactly on a graded listing, "Process" otherwise |
| MyListings.LabelMatchesStep | src/app/my-listings/page.tsx:100 | the label says "Complete" exactly when processing completes |
| MyListings.StatusBadge | src/app/my-listings/page.tsx:155 | a non-empty status as it is, "Processing" for an empty one |
| MyListings.GradeBadge | src/app/my-listings/page.tsx:158-171 | a dash exactly for a missing or empty grade, "Grade X" otherwise |
| MyListings.ShowsDonationButtons | src/app/my-listings/page.tsx:214 | the donation buttons appear for every role but `ngo` |
| MyListings.PageView | src/app/my-listings/page.tsx:174-259 | the spinner exactly while loading; the sign-in prompt exactly when loaded without a user; otherwise the cards of the fetched listings exactly when there are some, the empty state exactly when there are none |
| MyListings.ListingsPage.constructor | src/app/my-listings/page.tsx:56-57 | no listings, nothing busy |
| MyListings.ListingsPage.OnSnapshot | src/app/my-listings/page.tsx:60-92 | nothing while loading, no listings without a user, otherwise one listing per document in order |
| MyListings.ListingsPage.SimulateProcessing | src/app/my-listings/page.tsx:94-130 | the processing update is applied to that document exactly when the write succeeds; `busyId` ends cleared either way |
| MyListings.ListingsPage.HandleDelete | src/app/my-listings/page.tsx:132-143 | a declined confirmation changes nothing; a confirmed one removes only that id on success and clears `busyId` on success and failure |
| MyListings.ListingsPage.ActionsDisabled | src/app/my-listings/page.tsx:329-343 | `!!busyId`: the buttons are disabled while a non-empty id is busy |
| MyListings.DeleteRemovesOnlyThat | src/app/my-listings/page.tsx:137 | removing an id keeps every other document unchanged |
| MyListings.BusyDisablesActions | src/app/my-listings/page.tsx:329-343 | while a non-empty id is busy all Process and Delete buttons are disabled |
| Dashboard.RowFor | src/app/dashboard/page.tsx:220-236 | kind Donation exactly for type "Donation", status completed exactly for "completed", item name defaulted to "Item" only when missing, no date without `createdAt` |
| Dashboard.RowTestsAreExact | src/app/dashboard/page.tsx:227-232 | "donation" is a sale, "Completed" is pending, an empty item name is kept |
| Dashboard.ActivityBadge | src/app/dashboard/page.tsx:261 | "Completed" for a completed row, "Pending" otherwise |
| Dashboard.DonationsCountedOutsideNgo | src/app/dashboard/page.tsx:175-190 | the case-insensitive NGO test and the inner exact test agree on normalised roles |
| Dashboard.IsNgoUser | src/app/dashboard/page.tsx:175 | the lower-cased role is "ngo", which selects the NGO branch; it agrees with the inner test (stated by DonationsCountedOutsideNgo) |
| Dashboard.CountsDonations | src/app/dashboard/page.tsx:190 | the role, not lower-cased, is not "ngo"; donations are counted exactly outside the NGO branch (stated by DonationsCountedOutsideNgo and StatsBounds) |
| Dashboard.SoldBy | src/app/dashboard/page.tsx:214 | the transaction's seller is the user; recent activity keeps exactly those that are dated, newest first (stated by RecentActivityIsNewestFirst) |
| Dashboard.SoldWithStatus | src/app/dashboard/page.tsx:184-199 | sold by the user with status exactly "completed" (184-185) or "pending" (198-199); the two counts are the seller's transactions in each status and together never exceed them (stated by StatsBounds) |
| Dashboard.ComputeStats | src/app/dashboard/page.tsx:180-208 | the four counts (stated by StatsBounds) |
| Dashboard.StatsBounds | src/app/dashboard/page.tsx:180-208 | sold and pending count the seller's transactions in each status; they are disjoint so sold + pending ≤ the seller's transactions; donations are counted exactly outside the NGO branch |
| Dashboard.RecentActivity | src/app/dashboard/page.tsx:211-238 | at most five rows |
| Dashboard.RecentActivityIsNewestFirst | src/app/dashboard/page.tsx:211-238 | the rows are the seller's five newest dated transactions, newest first |
| Dashboard.NewRequest | src/app/dashboard/page.tsx:127-133 | own id, name or "NGO", the comment trimmed (so non-empty for a non-blank one), status "pending", the given instant |
| Dashboard.PostedCommentIsStable | src/app/dashboard/page.tsx:130 | posting the stored comment again stores the same text |
| Dashboard.Capitalise | src/app/dashboard/page.tsx:159 | the first character upper-cased, the rest kept |
| Dashboard.CapitaliseLabels | src/app/dashboard/page.tsx:150-161 | only case changes; "pending", "accepted", "rejected" read "Pending", "Accepted", "Rejected" |
| Dashboard.PageView | src/app/dashboard/page.tsx:274-314 | the spinner exactly while auth or the fetch runs; the sign-in prompt exactly for a loaded visitor without a user; the NGO view, with the requests, exactly for a loaded NGO; the member view exactly for every other loaded user, always with the donated count and the donate card |
| Dashboard.MemberViewCountsDonations | src/app/dashboard/page.tsx:189-193 | a loaded user who is not an NGO gets the member view, whose donated count is every donation that user owns |
| Dashboard.PostDisabled | src/app/dashboard/page.tsx:379 | the post button is disabled while submitting or while the trimmed comment is empty |
| Dashboard.PostButtonMatchesGuard | src/app/dashboard/page.tsx:379 | an enabled button passes the handler's blank test and stores a non-empty comment; the button is disabled exactly while submitting or for an all-space comment, and the cleared comment disables it |
| Dashboard.DashboardPage.constructor | src/app/dashboard/page.tsx:68-83 | zero stats, fetching, empty comment, no requests |
| Dashboard.DashboardPage.SetComment | src/app/dashboard/page.tsx:371 | only the comment changes |
| Dashboard.DashboardPage.FetchNgoRequests | src/app/dashboard/page.tsx:86-114 | nothing without a user; the fetched requests, or the load error |
| Dashboard.DashboardPage.HandleNgoSubmit | src/app/dashboard/page.tsx:118-147 | no-op without a user or with a blank comment; otherwise the request is stored, the comment cleared and the success message set on a good write, the submit error on a failed one; `submitting` ends false |
| Dashboard.DashboardPage.PostRequest | src/app/dashboard/page.tsx:122-143 | the error cleared, then on a good write the request stored, the comment cleared, the success message set and the requests refetched; on a failed write the submit error and nothing else |
| Dashboard.DashboardPage.FetchDashboardData | src/app/dashboard/page.tsx:164-249 | `fetching` ends false; an NGO fetches its requests; anyone else gets the stats and the recent rows, or the dashboard error |
| Transactions.OrElse | src/app/transaction/page.tsx:46-50 | `value || fallback`: a missing or empty string gives the fallback |
| Transactions.ToTransaction | src/app/transaction/page.tsx:44-52 | the four text fields default to "", the status to "pending" on missing or empty; present values kept |
| Transactions.CollectTransactions | src/app/transaction/page.tsx:41-53 | one transaction per document, in query order |
| Transactions.Pending | src/app/transaction/page.tsx:178 | the records whose status is exactly "pending", in fetch order (stated by Partition) |
| Transactions.Done | src/app/transaction/page.tsx:179 | the records whose status is exactly "done", in fetch order, none of them pending (stated by Partition) |
| Transactions.Partition | src/app/transaction/page.tsx:178-179 | pending and done hold exactly the records in those statuses, as often as fetched, in fetch order; disjoint; other statuses in neither; together no longer than the list |
| Transactions.UnsetStatusIsPending | src/app/transaction/page.tsx:50 | a document without a status, or with an empty one, is listed as pending |
| Transactions.StatusBadge | src/app/transaction/page.tsx:75 | "Completed" exactly for "done", "Pending" otherwise |
| Transactions.PageView | src/app/transaction/page.tsx:137-179 | the spinner exactly while auth or data loads; the prompt exactly when loaded with no user; the two lists, with the error, exactly otherwise |
| Transactions.TransactionsPage.constructor | src/app/transaction/page.tsx:27-30 | no transactions, `loadingData` true, no error |
| Transactions.TransactionsPage.FetchTransactions | src/app/transaction/page.tsx:35-60 | no user changes nothing, `loadingData` included; otherwise the whole collection is read or the error set, and `loadingData` ends false |
| Transactions.SignedOutVisitShowsSpinner | src/app/transaction/page.tsx:36 | a visit that starts signed out keeps the spinner, not the sign-in prompt |
| DonatePage.DonationRecord | src/app/donate/page.tsx:70-77 | user, pickup location, notes, image URL, recognised text and creation instant; no status |
| DonatePage.StoredDonationIsPending | src/app/donate/page.tsx:70-77 | the transactions page reads the stored record as pending, with what was typed and recognised |
| DonatePage.PageView | src/app/donate/page.tsx:95-133 | each of the five views by an if-and-only-if: the spinner exactly while auth loads, the sign-in prompt exactly for a loaded visitor without a user, the blocking message exactly for a loaded NGO, and for any other user the confirmation exactly after a submission and the form exactly before one |
| DonatePage.NgoNeverGetsForm | src/app/donate/page.tsx:116-124 | an NGO never gets the form or its confirmation |
| DonatePage.DonateForm.SubmitEnabled | src/app/donate/page.tsx:234 | the button is enabled unless uploading, no file is chosen or the pickup location is empty |
| DonatePage.DonateForm.constructor | src/app/donate/page.tsx:29-38 | empty form, nothing submitted or uploading |
| DonatePage.DonateForm.ChooseFile | src/app/donate/page.tsx:42-45 | only the file changes |
| DonatePage.DonateForm.SetPickupLocation | src/app/donate/page.tsx:47-50 | only the pickup location changes |
| DonatePage.DonateForm.SetNotes | src/app/donate/page.tsx:47-50 | only the notes change |
| DonatePage.DonateForm.HandleSubmit | src/app/donate/page.tsx:52-84 | no user or file changes nothing; otherwise the blob goes under "donations/", the record is stored and `submitted` set exactly when every step succeeds, and `uploading` ends false |
| DonatePage.DonateForm.ResetForm | src/app/donate/page.tsx:86-93 | `submitted`, file, pickup location and notes cleared |
| DonatePage.EnabledSubmitPassesGuard | src/app/donate/page.tsx:234 | the button is enabled exactly when not uploading, a file is chosen and a pickup location typed |
| Navbar.IsLandingPage | src/components/Navbar.tsx:30 | the path is "/" or "/landing"; the hamburger is hidden there and the logo is not centred (stated by RenderRules) |
| Navbar.IsAuthPage | src/components/Navbar.tsx:31 | the path is "/login" or "/signup"; the hamburger is hidden there, and so is the whole shell (stated by RenderRules and AppShell.HideNavOnAuthPages) |
| Navbar.Render | src/components/Navbar.tsx:30-168 | the bar for a path and a user (stated by RenderRules) |
| Navbar.RenderRules | src/components/Navbar.tsx:30-168 | the hamburger exactly for a signed-in user away from "/", "/landing", "/login", "/signup"; the spacer exactly without it; the menu shows the name or "User" and the email; signed out, the login and sign-up links |
| Navbar.LogoTarget | src/components/Navbar.tsx:43-49 | "/dashboard" signed in, "/landing" otherwise |
| Navbar.LogoutNavigation | src/components/Navbar.tsx:34-41 | a successful logout ends on "/landing"; a failed one navigates nowhere |
| Sidebar.Render | src/components/sidebar.tsx:17-157 | nothing while loading, otherwise the links, quick actions and footer (stated by RenderLinks and the footer functions) |
| Sidebar.QuickActions | src/components/sidebar.tsx:105-139 | "Raise a Request" for an NGO, Sell and Donate otherwise (stated by QuickActionsByRole) |
| Sidebar.IsActive | src/components/sidebar.tsx:54 | a link is highlighted exactly when the path equals its target, so at most one link is (stated by RenderLinks) |
| Sidebar.RenderLinks | src/components/sidebar.tsx:17-54 | nothing while loading; otherwise Dashboard, My Listings and Tasks for every user, highlighted exactly on their own path, at most one at a time |
| Sidebar.QuickActionsByRole | src/components/sidebar.tsx:108-139 | an NGO gets exactly "Raise a Request", so neither Sell nor Donate; everyone else, signed out included, gets exactly Sell and Donate |
| Sidebar.Initial | src/components/sidebar.tsx:150 | one letter: the upper-cased first character of the name, or "U" |
| Sidebar.DisplayName | src/components/sidebar.tsx:153 | the name, or "User" |
| Sidebar.RoleLabel | src/components/sidebar.tsx:154 | the role's name, or "Member" |
| AppShell.HideNav | src/components/AppShell.tsx:12-13 | the bars are hidden on the routes without navigation (stated by HideNavOnAuthPages) |
| AppShell.HideNavOnAuthPages | src/components/AppShell.tsx:12-13 | the bars are hidden exactly on "/login" and "/signup", the top bar's auth pages |
| AppShell.Shell.constructor | src/components/AppShell.tsx:9 | the panel starts closed |
| AppShell.Shell.ToggleSidebar | src/components/AppShell.tsx:15 | the flag is negated, so two toggles restore it |
| AppShell.Shell.CloseSidebar | src/components/AppShell.tsx:16 | the panel is closed whatever it was, so closing twice is closing once |
| RoleGating.NgoNeverSeesDonate | src/components/sidebar.tsx:108-116 | an NGO sees no Donate action in the side panel, no donation buttons on "My Listings", the NGO dashboard and the blocking message on the donation page |
| RoleGating.SellGatesLikeDonateOutsideNgo | src/app/sell/page.tsx:108-149 | the sell page has no role gate: outside an NGO it shows the donation page's view, and a loaded NGO, blocked on the donation page, still gets the sell form |
| RoleGating.OthersSeeDonate | src/app/dashboard/page.tsx:606 | every other signed-in user is offered Donate in the side panel, "My Listings" and the dashboard, and gets the donation form |

## Left out

- Firebase Auth, Firestore and Storage are not modelled. A collection or a
  query result is an input sequence, and its order is the store's order. Writes
  are updates to a sequence or map field. Each call that may throw is a success
  flag or an `Option`.
- The dashboard's `where` filters are written out: the four counts in
  Dashboard.ComputeStats (dashboard/page.tsx:180, 184-185, 191, 198-199) and
  the recent-activity query in Dashboard.RecentActivity, together with its
  `limit(5)` (dashboard/page.tsx:214-216). The `orderBy("createdAt", "desc")`
  of recent activity is not computed. It is assumed as a precondition of
  Dashboard.RecentActivityIsNewestFirst, and the lemma shows that filtering
  and the limit keep it.
- Three queries are given as their results instead of being computed from a
  collection: the listings snapshot (my-listings/page.tsx:69), the NGO's own
  requests (dashboard/page.tsx:93-96) and the submissions on the transactions
  page (transaction/page.tsx:39).
- Tesseract OCR is an external engine. The recognised text is an input string.
- `Math.random`, `Date.now`, `Timestamp.now` and `serverTimestamp` are
  parameters: a grade index below 3, a price draw below the band width, and
  timestamps.
- MyListings.ProcessUpdate: the price is `BandLow + draw` over integer draws
  below the band width. This is the set of values
  `Math.floor(low + Math.random() * width)` can take when the generator has
  52-bit resolution. With a 53-bit generator, `Math.random()` can return
  1 − 2^-53, and double rounding then gives 2000 for grade A and 1000 for
  grade B. Floating-point arithmetic and the draw distribution are not modelled.
- MyListings.BandsAreExact: the bands 1200..1999, 600..999 and 150..499 are
  those of the integer draws. They are not the bands of a 53-bit generator,
  which can also reach 2000 (grade A) and 1000 (grade B).
- Locale formatting (`toLocaleString`, `toLocaleDateString`) is not modelled.
  A row's date is the timestamp, or none.
- Async interleaving, React effect scheduling and the five-second `setTimeout`
  that clears the success banner are not modelled. Each handler is one atomic
  step, and its awaited results are inputs.
- Text.ToLower, Text.ToUpper, Sidebar.Initial and Dashboard.Capitalise map ASCII letters only.
  Unicode case mapping, which can change a string's length, is not modelled.
- Text.DecimalValue: `parseInt` is exact here. A quantity above 2^53 would lose
  precision in JavaScript.
- Field values of an unexpected type are not modelled, except for the profile's
  role and name, whose type the resolver tests. A stored field is a value of
  its expected type, or missing.
- JSX markup, Tailwind classes, icons and the modals are not modelled.
- Per-page copies of the panel toggle in the pages and in dashboard/donate
  `layout.tsx` are covered by `AppShell.Shell`.
- The landing, login and sign-up pages, `activitytable.tsx`, the Firebase
  configuration and the root redirect are not part of this model. Only the
  sign-up form's three role values are used.

Where the code and its design description differ, the model follows the code:
- A listing's status is not monotone. Only "Graded" leads to "Completed". Every
  other status, "Completed" and "Cancelled" included, is graded again.
  `MyListings.CompletedIsRegraded` states this.
- The transactions page returns early without a user and never clears
  `loadingData`. A visit that starts signed out therefore shows the spinner, not
  the sign-in prompt. `Transactions.SignedOutVisitShowsSpinner` states this.
- Buttons are disabled by `!!busyId`. A listing whose id is the empty string
  would not disable them, so `MyListings.BusyDisablesActions` requires a
  non-empty id.
- The dashboard's first NGO test lower-cases the role, and its inner test does
  not. Roles are normalised on sign-in, so the two agree
  (`Dashboard.DonationsCountedOutsideNgo`).
