# Blood-donation dashboard client: decision logic and local state

This project models the client side of a blood-donation coordination service, a
React single-page application. The service that stores donation requests and
users is not part of this model: the client only calls it over HTTP. What is
modelled is the logic the client runs by itself:

- who may claim a donation request;
- what a blocked user may do;
- which fields an edit sends;
- how each dashboard table changes its local list after the service reports a
  write (`modifiedCount`, `deletedCount`, `insertedId`);
- page counts and the page cursor;
- role-based navigation and the private-route gate;
- the password rule and the district → upazila option filter;
- blood-stock classification and the admin pie chart;
- the profile form's fallbacks;
- three small state machines: the network-load ticker, the theme switch and the
  blog publish toggle.

Each HTTP response becomes a parameter of the handler that receives it. A
component whose state the handlers replace step by step becomes a `class` whose
methods say the whole new state. Pure derivations become functions whose
contracts are connected by lemmas to independent definitions: an inverse, a
reference fold, or an order-preservation law.

Modules:

- `Js`: absent values (`null`/`undefined` are one `None`), truthiness, `||`.
- `Text`: `String(n)`, `padStart`, and their decimal inverse.
- `Pagination`: `Math.ceil(n / d)` and the two-digit page labels.
- `Geo`: districts, upazilas, and the id comparisons (`===` and `toString()`).
- `Lists`: the keyed `map`/`filter` reducers every table uses.
- `FormUrlEncoded`: query strings in the application/x-www-form-urlencoded
  format of the WHATWG URL Standard (parser, `encodeURIComponent`, serializer).
- `Records`: users, requests and the request form.
- One module per screen: `DonationDetails`, `CreateDonationRequest`,
  `UpdateDonationRequest`, `DashboardHome`, `MyDonationRequests`, `FieldOps`,
  `AllUsers`, `AdminHome`, `Sidebar`, `PrivateRouter`, `Register`, `Search`,
  `MyProfile`, `Inventory`, `ContentManagement`, `LiveStatistics`, `ThemeToggle`.

## Model

| member | source | states |
|---|---|---|
| Text.Decimal | src/Pages/Dashboard/MyDonationRequests.jsx:223 | `String(n)` is a non-empty digit string, one digit exactly below 10, and has no leading zero |
| Text.DecimalRoundTrip | src/Pages/Dashboard/MyDonationRequests.jsx:223 | reading the digits of `String(n)` back gives `n` |
| Text.DecimalInjective | src/Pages/Dashboard/MyDonationRequests.jsx:223 | different numbers render differently |
| Text.PadStart | src/Pages/Dashboard/MyDonationRequests.jsx:223 | `padStart` yields max(width, length) characters: the fill, then the original string |
| Text.LeadingZeros | src/Pages/Dashboard/MyDonationRequests.jsx:223 | leading zeros do not change the decimal value |
| Pagination.CeilDiv | src/Pages/Dashboard/MyDonationRequests.jsx:18 | `Math.ceil(n/d)` is the least `r` with `r*d >= n`; it is 0 exactly when `n` is 0 |
| Pagination.PageIndexes | src/Pages/Dashboard/MyDonationRequests.jsx:19 | `[...Array(n).keys()]` is exactly 0 .. n-1 |
| Pagination.PageLabel | src/Pages/Dashboard/MyDonationRequests.jsx:223 | a page label is digits only, at least two of them, and exactly two below page 99 |
| Pagination.PageLabelRoundTrip | src/Pages/Dashboard/MyDonationRequests.jsx:223 | the label of page `i` reads back as `i + 1` |
| Pagination.PageLabelsDistinct | src/Pages/Dashboard/MyDonationRequests.jsx:217-224 | different pages have different labels |
| Geo.FindDistrict | src/Pages/Search.jsx:20 | `find` by name gives nothing exactly when no district has that name, otherwise the first district that has it |
| Geo.FilterByDistrict | src/Pages/Search.jsx:23 | an upazila is kept exactly when its district id matches under the chosen comparison |
| Geo.FilterByDistrictAppend | src/Pages/Search.jsx:23 | the filter distributes over concatenation, so the original order is kept |
| Geo.FilterByDistrictKeepsAll | src/Pages/Search.jsx:23 | a list whose every entry matches passes through unchanged |
| Geo.UpazilaOptions | src/Pages/Dashboard/CreateDonationRequest.jsx:37-46 | an unknown district name gives no options; a known one gives exactly the upazilas whose district id matches that district's id |
| Geo.StrictImpliesAsString | src/Pages/Dashboard/CreateDonationRequest.jsx:41 | ids equal under `===` are equal as strings |
| Geo.SameKindComparisonsAgree | src/Pages/Dashboard/CreateDonationRequest.jsx:41 | between two numbers, or two strings, `===` and `toString()` equality agree |
| Geo.MixedKindsDiffer | src/Pages/Search.jsx:23 | the number 7 and the string "7" match as strings but not under `===` |
| Lists.UpdateWhere | src/AdminDashboard/AllUsers.jsx:46 | `map` by id keeps the length, leaves every other row unchanged and changes every matching row |
| Lists.RemoveWhere | src/AdminDashboard/AllUsers.jsx:65 | `filter` by id keeps exactly the rows with another id |
| Lists.RemoveWhereAppend | src/AdminDashboard/AllUsers.jsx:65 | removal distributes over concatenation, so the survivors keep their order |
| Lists.RemoveWhereAbsent | src/AdminDashboard/AllUsers.jsx:65 | removing an id that no row carries changes nothing |
| Lists.RemoveWhereCount | src/AdminDashboard/AllUsers.jsx:65 | the length falls by exactly the number of rows with that id |
| Lists.RemoveAfterUpdate | src/Pages/Dashboard/DashboardHome.jsx:42-56 | an id-preserving update followed by a removal of that id equals the removal alone |
| Lists.UpdateWhereKeepsKeys | src/AdminDashboard/AllUsers.jsx:46 | an id-preserving update keeps the sequence of ids |
| DonationDetails.ActionFor | src/Pages/Dashboard/DonationDetails.jsx:45-93 | Donate Now exactly for a pending request, a signed-in user and an email that is not the requester's; the own-request notice exactly for the owner; the login prompt exactly without a user; otherwise only the status badge |
| DonationDetails.BadgeText | src/Pages/Dashboard/DonationDetails.jsx:90-92 | the badge reads `Status: ` followed by the status with every ASCII lower-case letter upper-cased |
| DonationDetails.ClaimedBadge | src/Pages/Dashboard/DonationDetails.jsx:90-92 | a claimed request's badge reads `Status: INPROGRESS` |
| DonationDetails.DonorBanner | src/Pages/Dashboard/DonationDetails.jsx:65-71 | the donor banner appears exactly for requests in progress and names the donor |
| DonationDetails.ClaimPayload | src/Pages/Dashboard/DonationDetails.jsx:20-24 | the claim sends status `inprogress` with the user's name and email as the donor |
| DonationDetails.Claimed | src/Pages/Dashboard/DonationDetails.jsx:30-35 | after a claim the request is `inprogress` with the user as donor, and every other field is unchanged |
| DonationDetails.ClaimOfferedOnlyToOthers | src/Pages/Dashboard/DonationDetails.jsx:28-35 | a claim offered to the user never makes the requester the donor, shows the banner, and removes the offer |
| DonationDetails.DonationDetailsPage.Loaded | src/Pages/Dashboard/DonationDetails.jsx:12-15 | the response becomes the shown request |
| DonationDetails.DonationDetailsPage.ConfirmDonation | src/Pages/Dashboard/DonationDetails.jsx:17-37 | sends the claim payload; the local record becomes the claimed record only when `modifiedCount > 0` |
| CreateDonationRequest.BuildRequest | src/Pages/Dashboard/CreateDonationRequest.jsx:56-70 | a new request is `pending`, carries the signed-in user as requester, and copies every form field |
| CreateDonationRequest.HandleSubmit | src/Pages/Dashboard/CreateDonationRequest.jsx:48-77 | a blocked user is denied and nothing is sent; otherwise the built request is posted and navigation follows exactly when an `insertedId` comes back |
| CreateDonationRequest.SubmitDisabledIffDenied | src/Pages/Dashboard/CreateDonationRequest.jsx:170 | the submit button is disabled exactly when the handler would deny the user |
| CreateDonationRequest.CreateRequestForm.DistrictChanged | src/Pages/Dashboard/CreateDonationRequest.jsx:37-46 | the upazila options become those of the named district, ids compared as strings |
| CreateDonationRequest.CreateRequestForm.UpazilaSelectDisabled | src/Pages/Dashboard/CreateDonationRequest.jsx:136 | the upazila select is disabled exactly when there are no options |
| UpdateDonationRequest.UpdatedInfo | src/Pages/Dashboard/UpdateDonationRequest.jsx:29-39 | the edit payload has exactly the nine descriptive keys, each taken from its form field, and none of status, donor or requester |
| UpdateDonationRequest.NineFields | src/Pages/Dashboard/UpdateDonationRequest.jsx:29-39 | the payload has nine keys |
| UpdateDonationRequest.SelectValue | src/Pages/Dashboard/UpdateDonationRequest.jsx:78-97 | an untouched select submits its `defaultValue` exactly when options present at mount carry it (or the first option happens to be it); otherwise the first option, and "" without options |
| UpdateDonationRequest.SubmittedForm | src/Pages/Dashboard/UpdateDonationRequest.jsx:15-22 | the text inputs submit the stored values; the three selects submit what `SelectValue` says, given whether each list had arrived before the request |
| UpdateDonationRequest.LateDistrictsChangeTheDistrict | src/Pages/Dashboard/UpdateDonationRequest.jsx:17-21 | when the district list arrives after the form mounted, or lacks the stored name, the untouched form sends the first district and so differs from the stored request |
| UpdateDonationRequest.UntouchedFormRoundTrip | src/Pages/Dashboard/UpdateDonationRequest.jsx:73-121 | if both lists had arrived when the form mounted and the stored blood group, district and upazila are among the options, submitting the form untouched sends back exactly the request's descriptive fields |
| UpdateDonationRequest.EditScreen | src/Pages/Dashboard/UpdateDonationRequest.jsx:53-68 | nothing editable is shown until the request is loaded; then requester name and email are shown read-only and the form starts from the request |
| UpdateDonationRequest.HandleUpdate | src/Pages/Dashboard/UpdateDonationRequest.jsx:25-51 | the patch carries the payload and never requester or status; navigation happens exactly when `modifiedCount > 0` |
| DashboardHome.WithoutRequest | src/Pages/Dashboard/DashboardHome.jsx:42 | deletion keeps exactly the rows with another id, and the length falls by the number removed |
| DashboardHome.WithStatus | src/Pages/Dashboard/DashboardHome.jsx:54-56 | a status change keeps the length and the ids, changes only the status of the matching rows and nothing else |
| DashboardHome.WithoutRequestKeepsOrder | src/Pages/Dashboard/DashboardHome.jsx:42 | deletion keeps the remaining rows in order |
| DashboardHome.WithoutAbsentRequest | src/Pages/Dashboard/DashboardHome.jsx:42 | deleting an unlisted id changes nothing |
| DashboardHome.DeleteAfterStatusChange | src/Pages/Dashboard/DashboardHome.jsx:42-56 | a status change followed by a delete of the same row leaves what the delete alone leaves |
| DashboardHome.RowFor | src/Pages/Dashboard/DashboardHome.jsx:112-126 | donor details and Done/Cancel appear exactly on rows in progress |
| DashboardHome.StatusChangeHidesActions | src/Pages/Dashboard/DashboardHome.jsx:121-126 | after Done or Cancel is applied, the row no longer offers them |
| DashboardHome.TableShown | src/Pages/Dashboard/DashboardHome.jsx:71 | the table appears exactly when there is a recent request |
| DashboardHome.DashboardHomePage.Loaded | src/Pages/Dashboard/DashboardHome.jsx:14-26 | the response replaces the recent requests |
| DashboardHome.DashboardHomePage.Delete | src/Pages/Dashboard/DashboardHome.jsx:28-48 | a delete is sent only when confirmed, and the list changes only when `deletedCount > 0` |
| DashboardHome.DashboardHomePage.StatusUpdate | src/Pages/Dashboard/DashboardHome.jsx:50-60 | the list changes only when `modifiedCount > 0`, and then by the status change |
| MyDonationRequests.NumberOfPages | src/Pages/Dashboard/MyDonationRequests.jsx:14-18 | the page count is the least number of 5-row pages that holds every request |
| MyDonationRequests.PageButtons | src/Pages/Dashboard/MyDonationRequests.jsx:217-224 | there is one button per page, and button `i` goes to page `i` with the two-digit label of `i + 1` |
| MyDonationRequests.PageButtonLabels | src/Pages/Dashboard/MyDonationRequests.jsx:223 | each label reads as its page number plus one, and labels are distinct |
| MyDonationRequests.StatusStyle | src/Pages/Dashboard/MyDonationRequests.jsx:53-60 | each of the four statuses has its own style, and any other string the gray default |
| MyDonationRequests.StatusStylesDistinct | src/Pages/Dashboard/MyDonationRequests.jsx:53-60 | the four styles differ from each other and from the default |
| MyDonationRequests.RowActions | src/Pages/Dashboard/MyDonationRequests.jsx:170-193 | Done and Cancel exactly for rows in progress; every row ends with its edit and detail links |
| MyDonationRequests.PrevPage | src/Pages/Dashboard/MyDonationRequests.jsx:209-210 | Previous is disabled on page 0 and otherwise moves back one page |
| MyDonationRequests.NextAsWrittenLeavesEmptyList | src/Pages/Dashboard/MyDonationRequests.jsx:229-230 | with no requests, Next as written is enabled on every page and moves from page 0 to the non-existent page 1 |
| MyDonationRequests.NextAsWrittenPastLastPage | src/Pages/Dashboard/MyDonationRequests.jsx:229-230 | from a cursor at or past the page count, Next as written is enabled and moves one page further out |
| MyDonationRequests.StaleCursorAfterRefetch | src/Pages/Dashboard/MyDonationRequests.jsx:35-39 | six requests fill two pages; after one leaves the filter, five fill one, the cursor on page 1 is past it, and Next as written leads to page 2 while the corrected one stays |
| MyDonationRequests.NextPage | src/Pages/Dashboard/MyDonationRequests.jsx:229-230 | corrected: Next is disabled on the last page, past it, or when there is none, and otherwise moves to the next existing page |
| MyDonationRequests.NextAgreesOnExistingPages | src/Pages/Dashboard/MyDonationRequests.jsx:229-230 | from any existing page, the corrected button behaves as the one written |
| MyDonationRequests.NextWalksAllPages | src/Pages/Dashboard/MyDonationRequests.jsx:229-230 | repeated presses of Next visit each page in turn and stop on the last |
| MyDonationRequests.NextThenPrev | src/Pages/Dashboard/MyDonationRequests.jsx:209-230 | Next then Previous returns to the page it started from, except on the last page |
| MyDonationRequests.MyDonationRequestsPage.FilterChanged | src/Pages/Dashboard/MyDonationRequests.jsx:83 | a new status filter always resets the cursor to page 0 |
| MyDonationRequests.MyDonationRequestsPage.Previous | src/Pages/Dashboard/MyDonationRequests.jsx:209-210 | the cursor moves as `PrevPage` says and stays on an existing page |
| MyDonationRequests.MyDonationRequestsPage.Next | src/Pages/Dashboard/MyDonationRequests.jsx:229-230 | as written: the cursor moves as `NextPageAsWritten` says, so it stays on an existing page only when it was on the last page or before it; with no pages, or from past the end, it leaves them |
| MyDonationRequests.MyDonationRequestsPage.NextCorrected | src/Pages/Dashboard/MyDonationRequests.jsx:229-230 | corrected: the cursor moves as `NextPage` says and stays on an existing page |
| MyDonationRequests.MyDonationRequestsPage.GoTo | src/Pages/Dashboard/MyDonationRequests.jsx:220 | a page button moves the cursor to its page |
| MyDonationRequests.MyDonationRequestsPage.Loaded | src/Pages/Dashboard/MyDonationRequests.jsx:21-26 | the response replaces list and count, the cursor is kept, and it stays on an existing page exactly when it is 0 or below the new page count |
| MyDonationRequests.MyDonationRequestsPage.StatusUpdated | src/Pages/Dashboard/MyDonationRequests.jsx:35-50 | the list is fetched again exactly when `modifiedCount > 0` |
| FieldOps.TotalPages | src/Pages/FieldOps.jsx:53 | the page count is the least number of 6-row pages that holds every operation |
| FieldOps.PagerShown | src/Pages/FieldOps.jsx:164 | the page buttons appear exactly when there are more than six operations |
| FieldOps.ResetDisabled | src/Pages/FieldOps.jsx:101 | Reset is disabled exactly when the filter is falsy, that is, when no group is chosen |
| FieldOps.OptionsEnableReset | src/Pages/FieldOps.jsx:93-101 | every group of the select enables Reset and holds no `&` |
| FieldOps.StatusDot | src/Pages/FieldOps.jsx:144 | the dot is green or amber, green exactly for operations in progress |
| FieldOps.OperationsOf | src/Pages/FieldOps.jsx:31 | a missing result becomes the empty list |
| FieldOps.CountOf | src/Pages/FieldOps.jsx:32 | a missing count becomes 0 |
| FieldOps.ActiveOpsQueryAsWritten | src/Pages/FieldOps.jsx:27 | as written, with no `&` in the filter, the service reads the page, the page size and the filter decoded, so a `+` arrives as a space |
| FieldOps.ActiveOpsQuery | src/Pages/FieldOps.jsx:27 | with escaping, the service reads back the page, the page size and the blood group exactly |
| FieldOps.AsWrittenLosesPlus | src/Pages/FieldOps.jsx:27 | as written, the filter `O+` reaches the service as `O ` |
| FieldOps.FieldOpsPage.Query | src/Pages/FieldOps.jsx:27 | the fetch sends the unescaped query as written: the service reads the current page and, with no `&` in it, the decoded filter |
| FieldOps.FieldOpsPage.BloodChanged | src/Pages/FieldOps.jsx:43-46 | a new blood-group filter resets the cursor to page 0 |
| FieldOps.FieldOpsPage.ResetFilters | src/Pages/FieldOps.jsx:48-51 | Reset clears the filter and the cursor, after which Reset is disabled |
| FieldOps.FieldOpsPage.GoTo | src/Pages/FieldOps.jsx:164-169 | a page button, shown only above six operations, moves the cursor to its page and changes nothing else |
| FieldOps.FieldOpsPage.Loaded | src/Pages/FieldOps.jsx:31-32 | the response replaces the list and count, with the defaults for missing parts |
| AllUsers.WithRole | src/AdminDashboard/AllUsers.jsx:46 | only the matching user's role changes |
| AllUsers.WithStatus | src/AdminDashboard/AllUsers.jsx:67 | only the matching user's status changes |
| AllUsers.WithoutUser | src/AdminDashboard/AllUsers.jsx:65 | exactly the users with another id remain |
| AllUsers.AfterStatusChange | src/AdminDashboard/AllUsers.jsx:64-68 | under a status filter that the new status leaves, the user leaves the list; otherwise only the user's status changes |
| AllUsers.StatusChangeKeepsFilter | src/AdminDashboard/AllUsers.jsx:62-68 | a list that matches the filter still matches it after a status change |
| AllUsers.RoleChangeKeepsFilter | src/AdminDashboard/AllUsers.jsx:45-46 | a role change keeps a list that matches the filter matching |
| AllUsers.StatusButtonFor | src/AdminDashboard/AllUsers.jsx:168-180 | Block exactly for active users, Unblock otherwise, each setting the other status and disabled exactly for the current user |
| AllUsers.RoleButtonDisabled | src/AdminDashboard/AllUsers.jsx:158-164 | a role button is enabled exactly when it would change the role of another user |
| AllUsers.EnabledButtonsAreSent | src/AdminDashboard/AllUsers.jsx:155-180 | a click on an enabled role or status button is never refused by its handler |
| AllUsers.AllUsersPage.FilterLoaded | src/AdminDashboard/AllUsers.jsx:14-36 | a filter change and its response set the filter and replace the list |
| AllUsers.AllUsersPage.RoleChange | src/AdminDashboard/AllUsers.jsx:38-53 | a change aimed at one's own email is refused and nothing is sent; otherwise the list changes only when `modifiedCount > 0` |
| AllUsers.AllUsersPage.StatusChange | src/AdminDashboard/AllUsers.jsx:55-75 | the same refusal; otherwise, when `modifiedCount > 0`, the list becomes `AfterStatusChange` under the current filter |
| AdminHome.OtherRequests | src/AdminDashboard/AdminHome.jsx:76 | `otherReqs` plus the completed and pending counts is the total, with missing counts as 0 |
| AdminHome.Positive | src/AdminDashboard/AdminHome.jsx:81 | a slice is kept exactly when it is given and its value is positive; no more slices come out than go in |
| AdminHome.PositiveAppend | src/AdminDashboard/AdminHome.jsx:81 | the filter distributes over concatenation, so the kept slices stay in their order |
| AdminHome.ChartData | src/AdminDashboard/AdminHome.jsx:77-81 | at most three slices, all positive |
| AdminHome.PositiveOfThree | src/AdminDashboard/AdminHome.jsx:77-81 | filtering three slices keeps those with positive values, in order |
| AdminHome.ChartOrder | src/AdminDashboard/AdminHome.jsx:77-81 | the chart is Successful, Pending, Others, each present exactly when its value is positive |
| AdminHome.ChartSum | src/AdminDashboard/AdminHome.jsx:76-81 | the drawn values sum to the positive parts of the three counts |
| AdminHome.ChartCoversTotal | src/AdminDashboard/AdminHome.jsx:76-81 | with non-negative counts and `otherReqs >= 0`, the drawn values sum to the total |
| Sidebar.Overview | src/Components/Sidebar.jsx:37-42 | admins get the admin overview link; every other role, and a missing one, the user dashboard |
| Sidebar.NavLinks | src/Components/Sidebar.jsx:33-60 | Main_Home first and New_Request last; Registry_Manage exactly for admins; Global_Missions and Content_Control exactly for admins and volunteers |
| Sidebar.PathsDistinct | src/Components/Sidebar.jsx:105-108 | no two links share a path, the list key |
| Sidebar.AdminSeesEverything | src/Components/Sidebar.jsx:33-60 | apart from the overview, an admin sees every link any other role sees |
| Sidebar.SidebarState.Toggle | src/Components/Sidebar.jsx:18 | the toggle flips the drawer |
| Sidebar.SidebarState.LinkClicked | src/Components/Sidebar.jsx:110 | any link click closes the drawer |
| PrivateRouter.Guard | src/Provider/PrivateRouter.jsx:8-14 | loading shows only the placeholder; otherwise the page is shown exactly for a user with an email, and everyone else is redirected to the login page with the wanted path |
| PrivateRouter.NoEmailIsNoUser | src/Provider/PrivateRouter.jsx:11-14 | a user without an email is treated as no user |
| Register.RegexMeansRule | src/Pages/Auth/Register/Register.jsx:74-75 | the regular expression accepts exactly the passwords with at least six characters, none a line terminator, and at least one lowercase and one uppercase ASCII letter |
| Register.PasswordExamples | src/Pages/Auth/Register/Register.jsx:74-75 | sample passwords on either side of the rule |
| Register.RegisterPage.FilteredUpazilas | src/Pages/Auth/Register/Register.jsx:26-29 | no options for an unknown district; otherwise exactly the upazilas whose id is `===` the district's |
| Register.RegisterPage.DistrictChanged | src/Pages/Auth/Register/Register.jsx:32-35 | a new district clears the chosen upazila |
| Register.RegisterPage.UpazilaChanged | src/Pages/Auth/Register/Register.jsx:170 | the chosen upazila is set and nothing else changes |
| Register.RegisterPage.Submit | src/Pages/Auth/Register/Register.jsx:57-103 | a rejected password sets the error and yields no record, so nothing is uploaded or created; an accepted one clears the error and yields a `donor`, `active` record with the chosen district and upazila |
| Search.SearchQueryAsWritten | src/Pages/Search.jsx:38 | as written, with no `&` in the values, the service reads the three values decoded, so a `+` arrives as a space |
| Search.SearchQuery | src/Pages/Search.jsx:34-38 | with escaping, the service reads back exactly the blood group, district and upazila |
| Search.AsWrittenPlainValues | src/Pages/Search.jsx:38 | as written, the query survives only while no value has `+`, `%`, `&` or `=` |
| Search.AsWrittenLosesPlus | src/Pages/Search.jsx:38 | as written, a search for `A+` reaches the service as a search for `A ` |
| Search.SearchPage.Search | src/Pages/Search.jsx:30-38 | the spinner shows and the unescaped query of the code as written is sent: with no `&` in the values, the service reads them decoded |
| Search.SearchPage.Found | src/Pages/Search.jsx:39-40 | the donors of the response replace the shown list, the spinner goes, and the district state is kept |
| Search.SearchPage.DistrictChanged | src/Pages/Search.jsx:17-28 | an unknown name empties the options; a known one gives exactly its upazilas by `===`, in order |
| Search.SearchPage.UpazilaSelectDisabled | src/Pages/Search.jsx:68 | the upazila select is disabled exactly when there are no options |
| FormUrlEncoded.DecodeEncode | src/Pages/Search.jsx:38 | decoding undoes `encodeURIComponent` for every string |
| FormUrlEncoded.ParseSerialize | src/Pages/Search.jsx:38 | an escaped query parses back to the very pairs it was built from |
| FormUrlEncoded.ParseSerializeRaw | src/Pages/Search.jsx:38 | an unescaped query parses to the names and the decoded values |
| FormUrlEncoded.PlusBecomesSpace | src/Pages/Search.jsx:38 | a letter followed by `+` decodes to the letter and a space |
| MyProfile.Merged | src/Pages/Dashboard/MyProfile.jsx:27-34 | each field is the stored value when truthy; otherwise the account's name, email or photo; otherwise "" |
| MyProfile.StoredValuesWin | src/Pages/Dashboard/MyProfile.jsx:27-34 | a fully filled stored profile is shown as stored |
| MyProfile.AccountFillsGaps | src/Pages/Dashboard/MyProfile.jsx:27-34 | with nothing stored, the account fills name, email and avatar, and the rest are empty |
| MyProfile.SetField | src/Pages/Dashboard/MyProfile.jsx:110 | an edit changes its own field and leaves the other five alone |
| MyProfile.EmailNeverEditable | src/Pages/Dashboard/MyProfile.jsx:125 | the email input is disabled in every mode |
| MyProfile.ProfilePage.Loaded | src/Pages/Dashboard/MyProfile.jsx:25-35 | a load fills the form by the fallback merge |
| MyProfile.ProfilePage.LoadFailed | src/Pages/Dashboard/MyProfile.jsx:37-45 | a failed load copies only name, email and photo from the account, possibly absent, and keeps the rest |
| MyProfile.ProfilePage.Edit | src/Pages/Dashboard/MyProfile.jsx:106-180 | an enabled input changes exactly its field |
| MyProfile.ProfilePage.StartEdit | src/Pages/Dashboard/MyProfile.jsx:78 | Edit Profile enters edit mode and keeps the form |
| MyProfile.ProfilePage.Cancel | src/Pages/Dashboard/MyProfile.jsx:85 | Cancel leaves edit mode and keeps the edited values in the form |
| MyProfile.ProfilePage.Save | src/Pages/Dashboard/MyProfile.jsx:50-68 | edit mode ends exactly when the service modified or created the record |
| Inventory.Percentage | src/Pages/Inventory.jsx:36 | the fill level never exceeds 100, reaches it exactly from 20 units, and is five per unit below that |
| Inventory.Status | src/Pages/Inventory.jsx:37-39 | CRITICAL exactly at 0 units, LOW exactly for other values below 5, STABLE otherwise |
| Inventory.SegmentLitMeans | src/Pages/Inventory.jsx:111-112 | bar segment `i` is lit exactly when the stock exceeds `2i` units |
| Inventory.LitCountOfWhole | src/Pages/Inventory.jsx:111-112 | `u` whole units light min(ceil(u/2), 10) of the ten segments |
| Inventory.UnitsOr0 | src/Pages/Inventory.jsx:43 | an unreadable count counts as 0, a readable one as itself |
| Inventory.ReduceIsSum | src/Pages/Inventory.jsx:43 | the left `reduce` equals the sum of the readable counts |
| Inventory.TotalUnits | src/Pages/Inventory.jsx:43 | the total is that sum, and it is non-negative when every count is |
| Inventory.TotalOfAppend | src/Pages/Inventory.jsx:43 | one more group adds its readable units to the total |
| ContentManagement.NextStatus | src/VolunteerDashboard/ContentManagement.jsx:17 | drafts are published, anything else becomes a draft |
| ContentManagement.ToggleTwice | src/VolunteerDashboard/ContentManagement.jsx:17 | two toggles restore a draft or published blog |
| ContentManagement.ToggleTwiceOther | src/VolunteerDashboard/ContentManagement.jsx:17 | any other status is not restored: two toggles publish it |
| ContentManagement.ToggleCaption | src/VolunteerDashboard/ContentManagement.jsx:85 | the caption is Publish exactly for drafts |
| ContentManagement.CaptionMatchesAction | src/VolunteerDashboard/ContentManagement.jsx:17-85 | the caption says Publish exactly when the click publishes |
| ContentManagement.WithStatus | src/VolunteerDashboard/ContentManagement.jsx:22 | only the matching blog's status changes |
| ContentManagement.WithoutBlog | src/VolunteerDashboard/ContentManagement.jsx:40 | exactly the blogs with another id remain, and the length falls by the number removed |
| ContentManagement.WithoutBlogKeepsOrder | src/VolunteerDashboard/ContentManagement.jsx:40 | deletion keeps the rest in order |
| ContentManagement.WithStatusKeepsIds | src/VolunteerDashboard/ContentManagement.jsx:22 | a status change keeps the ids and their order |
| ContentManagement.ContentManagementPage.Loaded | src/VolunteerDashboard/ContentManagement.jsx:10-13 | the response replaces the blog list |
| ContentManagement.ContentManagementPage.StatusToggle | src/VolunteerDashboard/ContentManagement.jsx:16-26 | the patch asks for the toggled status; the list changes only when `modifiedCount > 0` |
| ContentManagement.ContentManagementPage.Delete | src/VolunteerDashboard/ContentManagement.jsx:28-46 | only a confirmed delete is sent, and the list changes only when `deletedCount > 0` |
| LiveStatistics.Clamp | src/Components/LiveStatistics.jsx:29 | the clamp lands in 60..85 and leaves a value already there unchanged |
| LiveStatistics.NextLoad | src/Components/LiveStatistics.jsx:27-30 | one tick keeps the load in 60..85 and, from inside the range, moves it by at most 1 |
| LiveStatistics.LoadStaysInRange | src/Components/LiveStatistics.jsx:27-30 | the load stays in range however the coins fall |
| LiveStatistics.LoadDrift | src/Components/LiveStatistics.jsx:27-30 | `k` ticks move the load by at most `k` |
| LiveStatistics.LiveStats.constructor | src/Components/LiveStatistics.jsx:21-22 | the counters start at 12480 lives and load 64 |
| LiveStatistics.LiveStats.Tick | src/Components/LiveStatistics.jsx:25-31 | lives grow by 0 or 1 and the load takes one clamped step |
| LiveStatistics.LiveStats.Run | src/Components/LiveStatistics.jsx:25-31 | over `k` ticks lives grow by the number of gains, at most `k`; the load is `LoadAfter` of the load coins, stays in range and drifts by at most `k` |
| ThemeToggle.InitialTheme | src/Components/ThemeToggle.jsx:5-7 | the stored theme when one is stored, otherwise light |
| ThemeToggle.Toggled | src/Components/ThemeToggle.jsx:10 | the result is always light or dark, and dark exactly when the theme was light |
| ThemeToggle.ToggleTwice | src/Components/ThemeToggle.jsx:10 | two toggles restore light or dark |
| ThemeToggle.UnknownThemeBecomesLight | src/Components/ThemeToggle.jsx:10 | any other stored theme becomes light at the first toggle |
| ThemeToggle.ThemeSwitch.Toggle | src/Components/ThemeToggle.jsx:9-12 | the theme becomes the toggled one, light or dark |

## Left out

- The service: request storage, server-side authorization, an atomic donor
  claim, list order and the real pagination query. Lists and counts arrive as
  parameters.
- HTTP itself. A call that the service rejects leaves the state as a zero count
  would. Toasts and dialogs are out, except for the confirmation answer, which is
  a parameter.
- Firebase authentication, the ImgBB upload, Stripe payments and all rendering.
  The uploaded image URL is a parameter of `Register.RegisterPage.Submit`.
- `Math.random`. The two coin flips of a tick are the parameters of
  `LiveStatistics.LiveStats.Tick`.
- The interval timer.
- `localStorage` and the DOM write in the theme switch. The stored theme is a
  constructor parameter.
- `new Date()`. The creation time is a parameter.
- JavaScript numbers. Counts are integers, and the stock figures are reals, so
  IEEE rounding is not modelled.
- `Geo.JsId`: numeric ids are non-negative integers. Negative and fractional ids
  are not modelled.
- `null` and `undefined` are one `None`.
- Inventory.Status: applies to numeric units only. `item.units` as a string
  (where `"0" === 0` is false) is not modelled per item. The total reads
  `Number(units)` as an optional real.
- Register.RegexTest: works on Dafny characters. JavaScript's `.` without the
  `u` flag matches one UTF-16 code unit, so a character outside the Basic
  Multilingual Plane counts twice in JavaScript and once here.
- DonationDetails.BadgeText: upper-cases ASCII letters only. `toUpperCase`
  on other alphabets (and its length-changing cases such as `ß`) is not modelled.
- FormUrlEncoded.Decode: decodes `%XX` only below 0x80. Multi-byte UTF-8
  sequences are not decoded. `FormUrlEncoded.Encode` keeps non-ASCII characters
  as they are, where `encodeURIComponent` would write their UTF-8 bytes.
- The request to the service in `MyProfile.ProfilePage.Save` and the
  authentication profile update are not modelled. Only the edit-mode outcome is.
- DashboardHome.DashboardHomePage.Delete: `handleDelete` and `handleStatusUpdate`
  build the new list from the `recentRequests` of the render that made the
  click, not from the latest state. With two responses pending, the later one
  can undo the earlier, e.g. bring back a deleted row. Responses are applied one
  at a time here, so this interleaving is not modelled.
- The loading flags of the dashboard pages. Only `MyProfile`'s is kept, because
  its failure handler is specified.

## Findings

| source | as written | input that shows it | evidently intended | confidence | as-written member | corrected member |
|---|---|---|---|---|---|---|
| src/Pages/Dashboard/MyDonationRequests.jsx:229-230 | Next is disabled only when `currentPage === numberOfPages - 1` | no requests: `count = 0`, so `numberOfPages = 0` and Next stays enabled on page 0 and moves the cursor to page 1, which does not exist | Next disabled on the last page or when there are no pages | not executed | MyDonationRequests.NextAsWrittenLeavesEmptyList | MyDonationRequests.NextPage |
| src/Pages/Dashboard/MyDonationRequests.jsx:35-39 | after a status change the list is fetched again but the cursor is kept, and Next at line 229 is enabled whenever the cursor is not exactly on the last page | six `inprogress` requests under that filter, cursor on page 1; marking its only row Done leaves five, one page, and Next leads to page 2 | Next disabled at or past the last page | not executed | MyDonationRequests.StaleCursorAfterRefetch | MyDonationRequests.NextPage |
| src/Pages/Search.jsx:38 | the three form values are pasted into the query string unescaped | blood group `A+`: the query `bloodGroup=A+&...` is read as `application/x-www-form-urlencoded`, where `+` means a space, so the service sees `A ` | values escaped with `encodeURIComponent`, so the service reads back `A+` | not executed; assumes the service decodes its query the standard way | Search.AsWrittenLosesPlus | Search.SearchQuery |
| src/Pages/FieldOps.jsx:27 | the blood-group filter is pasted into the query string unescaped | filter `O+`: the service sees `O ` | the filter escaped, so the service reads back `O+` | not executed; assumes the service decodes its query the standard way | FieldOps.AsWrittenLosesPlus | FieldOps.ActiveOpsQuery |
