# Smart civic system — a Dafny model of its client-side logic

Smart Civic System is a React single-page application. Citizens use it to
report civic issues (overflowing bins, waterlogging, broken toilets), follow
them in a community feed, trade recyclable waste for points and redeem
points for sponsored rewards. Administrators get a dashboard of the reports,
and there is an analytics page. Every piece of logic runs in the browser
against mock data. This project models that logic in Dafny and proves
properties of it:

- `Common` (common.dfy): shared pieces of JavaScript behaviour:
  - the points balance as a JavaScript number that may be NaN (`Num`);
  - `Array.prototype.filter`;
  - ASCII `toLowerCase` and `String.prototype.includes`;
  - the white space that `trim` removes;
  - the three-colour badge banding.
- `JsNumber` (jsnumber.dfy): the global `parseInt` (leading white space, sign,
  `0x` prefix, longest digit prefix, NaN when there are no digits) and the
  decimal rendering of numbers.
- `AuthContext` (authcontext.dfy): the session provider. It is a class with
  the fields `user`, `loading` and `userPoints`, and covers the mount effect,
  mock sign-in, sign-up, sign-out, `addPoints` and `useAuth`.
- `App` (app.dfy): the route table with its loading and role guards. A path
  is matched as React Router v6 matches static routes: trailing slashes and
  the case of ASCII letters are ignored.
- `Reports` (reports.dfy): the report fixtures and the search shared by the
  community feed and the admin dashboard.
- `IssueReporting` (issuereporting.dfy): the report form and its handlers,
  the severity classification and the five-point reward.
- `WasteExchange` (wasteexchange.dfy): the per-kilogram points table, the
  `parseInt(quantity.split('kg')[0] || '1')` computation, offer filtering,
  submission and claims.
- `Sponsorships` (sponsorships.dfy): the reward catalog, the category filter
  and redemption.
- `Community` (community.dfy): the feed search, the per-report comment
  threads and the status badge.
- `AdminDashboard` (admindashboard.dfy):
  - the report table filter;
  - the status, priority and ward-score badges;
  - the in-place leaderboard sorts, an insertion sort on an `array`;
  - the logging-only actions.
- `Analytics` (analytics.dfy): the trend badge, the chart maximum, the
  rounded success rate with its badge, and the area status label.

The source's stateful parts are classes whose methods update fields:
`AuthProvider`, `IssueReportingPage`, `WasteExchangePage`,
`SponsorshipsPage`, `CommunityPage` and `AdminDashboardPage`. The pages that
update the balance hold the shared `AuthProvider` and change its
`userPoints`, as `addPoints` does through the context. JavaScript's
`userPoints >= points` and `prev + points` are modelled with a NaN case. A
quantity such as "abc" makes `parseInt` return NaN. The balance then stays
NaN, and no reward can be redeemed, until the next sign-in, sign-up or
sign-out resets it.

Where the source reads the clock or produces random numbers, those values
are parameters:
- the validation score of a report;
- `Date.now()`, used as the comment id and the sign-up id;
- the sign-up timestamp;
- the camera's data URL and the formatted coordinates.

## Model

| member | source | states |
|---|---|---|
| `Common.Num.Plus` | src/contexts/AuthContext.tsx:86-88 | JavaScript addition on the balance: the sum is a number exactly when both operands are, and then it is their integer sum; NaN otherwise |
| `Common.Num.AtLeast` | src/pages/Sponsorships.tsx:130 | `userPoints >= points` is never true of NaN, and for a number it is the integer comparison |
| `Common.Filter` | src/pages/Community.tsx:29-32 | `Array.prototype.filter`: every kept element is from the input and passes the predicate, every passing input element is kept, and the result is no longer than the input |
| `Common.FilterIsSubsequence` | src/pages/AdminDashboard.tsx:51-56 | a filter keeps the surviving elements in their input order |
| `Common.SubsequenceReflexive` | src/pages/Sponsorships.tsx:116-118 | a list is an order-preserving subsequence of itself, as the unfiltered "All" catalog is |
| `Common.Find` | src/pages/WasteExchange.tsx:56 | `Array.prototype.find`: nothing exactly when no element matches, and otherwise the first matching element |
| `Common.FilterConcat` | src/pages/WasteExchange.tsx:39-43 | filtering a concatenation is the concatenation of the filtered parts |
| `Common.FilterSamePredicate` | src/pages/AdminDashboard.tsx:51-56 | predicates that agree on every element give the same filtered list |
| `Common.Lower` | src/pages/Community.tsx:30-31 | `toLowerCase` keeps the length and maps every character to its lower-case form (ASCII) |
| `Common.LowerIdempotent` | src/pages/Community.tsx:30-31 | lower-casing twice is lower-casing once |
| `Common.LowerChar` | src/pages/Community.tsx:30-31 | an ASCII capital becomes the letter 32 code points later, which is its lower-case form; every other character is kept |
| `Common.Contains` | src/pages/Community.tsx:30-31 | `includes` holds only when the needle is no longer than the text; `ContainsAt` characterises it exactly |
| `Common.ContainsAt` | src/pages/Community.tsx:30-31 | `includes` holds exactly when the needle is a prefix of the text at some index |
| `Common.MatchesIgnoringCaseOfLower` | src/pages/WasteExchange.tsx:40 | a case-insensitive search is unaffected by lower-casing the search term first |
| `Common.IsBlank` | src/pages/Community.tsx:53 | the `!newComment.trim()` test: every character of the draft is JavaScript white space |
| `Common.Banded` | src/pages/AdminDashboard.tsx:263-266 | the nested `v >= a ? green : v >= b ? yellow : red` choice: green iff v ≥ a, yellow iff b ≤ v < a, red iff v < b |
| `Common.BandedMonotone` | src/pages/Analytics.tsx:272-290 | a larger value never gets a lower band |
| `JsNumber.TrimStart` | src/pages/WasteExchange.tsx:48 | `parseInt` first drops the leading white space: the result is a suffix, everything dropped is white space, and it does not start with white space |
| `JsNumber.LeadingDigits` | src/pages/WasteExchange.tsx:48 | the longest prefix made of digits of the radix |
| `JsNumber.Magnitude` | src/pages/WasteExchange.tsx:48 | NaN exactly when the text after an optional "0x"/"0X" prefix does not start with a digit of the radix; a decimal value is only read from text that starts with a digit |
| `JsNumber.ReadNumber` | src/pages/WasteExchange.tsx:48 | after the white space, a number exactly when the magnitude after the sign is one; never negative without a minus sign, never positive with one |
| `JsNumber.ParseInt` | src/pages/WasteExchange.tsx:48 | NaN exactly when no digit follows the leading white space and the sign; otherwise the magnitude read there, negated after a minus sign |
| `JsNumber.Decimal` | src/pages/WasteExchange.tsx:48 | the decimal rendering of a natural number is a non-empty digit string |
| `JsNumber.DigitsValueOfDecimal` | src/pages/WasteExchange.tsx:48 | reading the decimal digits of n back gives n |
| `JsNumber.DecimalLeadingZero` | src/pages/WasteExchange.tsx:48 | a rendering starts with '0' exactly when it renders zero, so it is never mistaken for a "0x" prefix |
| `JsNumber.LeadingDigitsOfDigits` | src/pages/WasteExchange.tsx:48 | the digit run of digits followed by a non-digit is exactly those digits |
| `JsNumber.MagnitudeOfDecimal` | src/pages/WasteExchange.tsx:48 | the unsigned value read from a rendered number followed by non-digit text is that number |
| `JsNumber.ParseIntOfDecimal` | src/pages/WasteExchange.tsx:48 | `parseInt` reads back a rendered natural number, whatever non-digit text follows it (round trip) |
| `JsNumber.ParseIntOfNegativeDecimal` | src/pages/WasteExchange.tsx:48 | a leading '-' negates the value read |
| `JsNumber.ParseIntSkipsWhitespace` | src/pages/WasteExchange.tsx:48 | leading white space never changes the result of `parseInt` |
| `JsNumber.TrimStartSkipsWhitespace` | src/pages/WasteExchange.tsx:48 | trimming ignores any white-space prefix added in front |
| `JsNumber.BlankIffTrimStartEmpty` | src/pages/Community.tsx:53 | `trim()` leaves the empty string exactly when every character is white space, which is exactly when trimming the front alone leaves nothing |
| `JsNumber.ParseIntOfNonNumeric` | src/pages/WasteExchange.tsx:48 | text that starts with something other than white space, a sign or a digit parses to NaN |
| `JsNumber.ParseIntHexExample` | src/pages/WasteExchange.tsx:48 | a "0x" prefix switches to base 16 ("0x1f" is 31), and "0x" alone is NaN |
| `AuthContext.RoleOf` | src/App.tsx:41 | `user?.user_metadata?.role` is present exactly when there is a user whose metadata has a role |
| `AuthContext.MountUser` | src/contexts/AuthContext.tsx:32-44 | the development user has role "user", is not the administrator, shares the id of a non-admin mock sign-in, and carries a phone number that a mock sign-in does not |
| `AuthContext.SignInUser` | src/contexts/AuthContext.tsx:53-62 | the mock sign-in user keeps the e-mail; its id is "2" and its role "admin" exactly for the admin e-mail, "1" and "user" otherwise |
| `AuthContext.SignInPoints` | src/contexts/AuthContext.tsx:65 | the starting balance is 0 exactly for the admin e-mail and 150 otherwise |
| `AuthContext.AuthProvider.constructor` | src/contexts/AuthContext.tsx:26-28 | no user, loading, and a zero balance before the mount effect |
| `AuthContext.AuthProvider.Mount` | src/contexts/AuthContext.tsx:30-49 | installs the development user with role "user" and 150 points, and ends loading |
| `AuthContext.AuthProvider.SignIn` | src/contexts/AuthContext.tsx:51-66 | the new user and balance depend only on the e-mail; loading is untouched |
| `AuthContext.AuthProvider.SignUp` | src/contexts/AuthContext.tsx:68-79 | stores the given metadata unchanged, with the clock-derived id and timestamp, and a zero balance |
| `AuthContext.AuthProvider.SignOut` | src/contexts/AuthContext.tsx:81-84 | clears the user and the balance |
| `AuthContext.AuthProvider.AddPoints` | src/contexts/AuthContext.tsx:86-88 | the new balance is the old one plus the amount, with JavaScript's NaN behaviour and no lower bound |
| `AuthContext.UseAuth` | src/contexts/AuthContext.tsx:17-23 | returns the provider's value exactly when there is one, and otherwise the error "useAuth must be used within an AuthProvider" |
| `AuthContext.AddPointsCanGoNegative` | src/contexts/AuthContext.tsx:86-88 | a large enough debit takes the balance below zero |
| `AuthContext.NaNBalanceIsAbsorbing` | src/contexts/AuthContext.tsx:86-88 | a NaN balance stays NaN under every addition and never covers a cost |
| `AuthContext.SessionScenario` | src/contexts/AuthContext.tsx:30-66 | after the mount effect, signing in as the administrator gives role "admin" and 0 points; any other e-mail gives "user" and 150 |
| `App.AppContent` | src/App.tsx:21-67 | a spinner exactly while loading; the admin page only on a path whose route key is "/admin", and only for an admin; a protected page only with a user; without a user every redirect except the one from "/admin" goes to "/login"; nothing is rendered exactly when the route key is none of the route paths |
| `App.IsAdmin` | src/App.tsx:41 | `user?.user_metadata?.role === 'admin'`: a user is present, its metadata has a role, and the role is "admin" |
| `App.TrimTrailingSlashes` | src/App.tsx:32-67 | a prefix of the path that does not end in a slash, everything removed being slashes |
| `App.RouteKey` | src/App.tsx:32-67 | the key a path is matched by: no longer than the path, without capitals and not ending in a slash |
| `App.RouteKeyTrailingSlash` | src/App.tsx:32-67 | a trailing slash never changes the route key |
| `App.RouteKeyIgnoresCase` | src/App.tsx:32-67 | lower-casing the path never changes the route key |
| `App.RouteKeyIdempotent` | src/App.tsx:32-67 | the key of a route key is itself |
| `App.RouteKeyOfRoutePath` | src/App.tsx:34-65 | a path without capitals or a trailing slash, as every route path but "/" is, is its own key |
| `App.RouteKeyOfRoot` | src/App.tsx:33 | the key of "/" is the empty string |
| `App.RouteKeyOfAdmin` | src/App.tsx:40 | "/admin" is its own key and "/Admin/" has the same one |
| `App.SameRouteSameOutcome` | src/App.tsx:32-67 | two paths with the same route key lead to the same outcome |
| `App.LoadingShowsOnlySpinner` | src/App.tsx:21-27 | while loading, every path yields only the spinner |
| `App.LandingIsPublic` | src/App.tsx:33 | "/" (and "//", …) renders the landing page with or without a user |
| `App.LoginRoute` | src/App.tsx:34 | "/login" in any case, with or without trailing slashes, redirects a signed-in user to "/dashboard" and otherwise renders the login page |
| `App.SignedInRoutesAreProtectedOnly` | src/App.tsx:33-66 | no protected path coincides with "/", "/login" or "/admin" |
| `App.SignedInRoute` | src/App.tsx:35-66 | each protected path, in any case and with or without trailing slashes, renders its page exactly when a user is present, and redirects to "/login" otherwise |
| `App.AdminRoute` | src/App.tsx:39-42 | "/admin", in any case and with or without trailing slashes, renders the admin dashboard exactly for role "admin", and redirects everyone else, signed in or not, to "/dashboard" |
| `App.NoAdminPageForNonAdmin` | src/App.tsx:32-67 | no path shows the admin dashboard to a user without the admin role |
| `App.AdminAccessOfMockUsers` | src/App.tsx:39-42 | the development user is sent away from "/admin"; a mock sign-in reaches it exactly with the admin e-mail |
| `Reports.EmptySearchMatches` | src/pages/Community.tsx:29-32 | the empty search term matches every report |
| `IssueReporting.WithField` | src/pages/IssueReporting.tsx:37-42 | `handleInputChange` sets exactly the named field and leaves the others |
| `IssueReporting.WithFieldOverrides` | src/pages/IssueReporting.tsx:37-42 | a second change of a field overrides the first |
| `IssueReporting.WithFieldCommutes` | src/pages/IssueReporting.tsx:37-42 | changes of two different fields commute |
| `IssueReporting.QrFilled` | src/pages/IssueReporting.tsx:121-136 | a QR scan sets the location, category, title and description of the simulated bin and keeps severity and photo |
| `IssueReporting.QrFilledIdempotent` | src/pages/IssueReporting.tsx:121-136 | scanning twice is scanning once |
| `IssueReporting.ClassifySeverity` | src/pages/IssueReporting.tsx:110-112 | high iff the score is above 70, medium iff above 40 up to 70, low iff at most 40 |
| `IssueReporting.ClassifySeverityMonotone` | src/pages/IssueReporting.tsx:110-112 | a higher score never gives a lower severity |
| `IssueReporting.ClassifySeverityBoundaries` | src/pages/IssueReporting.tsx:110-112 | the comparisons are strict: a score of exactly 70 is medium, exactly 40 or 0 is low |
| `IssueReporting.IssueReportingPage.constructor` | src/pages/IssueReporting.tsx:17-25 | the empty form with severity "medium", not recording |
| `IssueReporting.IssueReportingPage.HandleInputChange` | src/pages/IssueReporting.tsx:37-42 | the form becomes `WithField` of the old form |
| `IssueReporting.IssueReportingPage.SelectCategory` | src/pages/IssueReporting.tsx:179 | a category button sets only the category |
| `IssueReporting.IssueReportingPage.PhotoCaptured` | src/pages/IssueReporting.tsx:58-59 | the camera callback stores the image data URL and nothing else |
| `IssueReporting.IssueReportingPage.RemovePhoto` | src/pages/IssueReporting.tsx:71-73 | clears only the photo |
| `IssueReporting.IssueReportingPage.LocationFound` | src/pages/IssueReporting.tsx:78-83 | the geolocation callback sets only the location |
| `IssueReporting.IssueReportingPage.ScanQRCode` | src/pages/IssueReporting.tsx:121-136 | the form becomes `QrFilled` of the old form |
| `IssueReporting.IssueReportingPage.StartVoiceRecording` | src/pages/IssueReporting.tsx:93-95 | recording starts |
| `IssueReporting.IssueReportingPage.VoiceNoteCompleted` | src/pages/IssueReporting.tsx:96-102 | recording stops and the transcript is appended to the description |
| `IssueReporting.IssueReportingPage.HandleSubmit` | src/pages/IssueReporting.tsx:105-119 | returns the classified severity and "/dashboard", credits 5 points, and leaves the form as it was |
| `IssueReporting.ReportScenario` | src/pages/IssueReporting.tsx:93-136 | scan, voice note and a submission with score 85: the form keeps severity "medium", the report is high, and the balance goes from 150 to 155 |
| `WasteExchange.FindCategory` | src/pages/WasteExchange.tsx:47 | `find` returns nothing exactly when no entry has the id, and otherwise the first entry that has it |
| `WasteExchange.FindCategoryUnique` | src/pages/WasteExchange.tsx:47 | looking up an id no other entry shares finds that entry |
| `WasteExchange.CategoryIdsDistinct` | src/pages/WasteExchange.tsx:22-29 | no two entries of the points table share an id |
| `WasteExchange.RateOf` | src/pages/WasteExchange.tsx:47 | every rate found lies between 2 and 20 points per kilogram |
| `WasteExchange.RateOfEntry` | src/pages/WasteExchange.tsx:22-29 | the rate of each entry's id is that entry's points |
| `WasteExchange.RateTable` | src/pages/WasteExchange.tsx:22-29 | the rates are plastic 5, paper 3, metal 10, glass 8, e-waste 20 and organic 2 |
| `WasteExchange.RateOfUnknown` | src/pages/WasteExchange.tsx:22-29 | any other category id has no rate |
| `WasteExchange.BeforeKg` | src/pages/WasteExchange.tsx:48 | `split('kg')[0]` is a prefix without "kg" that is either the whole text or followed by "kg" |
| `WasteExchange.BeforeKgWithoutKg` | src/pages/WasteExchange.tsx:48 | text without "kg" is not cut |
| `WasteExchange.QuantityText` | src/pages/WasteExchange.tsx:48 | `split('kg')[0] \|\| '1'` is non-empty and has no "kg"; it is a prefix of the quantity followed by "kg" or the end, or the default "1" |
| `WasteExchange.QuantityTextOfNumberText` | src/pages/WasteExchange.tsx:48 | a non-empty text without the letter k, followed by "kg…", is exactly the text used |
| `WasteExchange.BeforeKgOfDigits` | src/pages/WasteExchange.tsx:48 | digits followed by "kg…" are cut just before the "kg" |
| `WasteExchange.OfferPoints` | src/pages/WasteExchange.tsx:47-48 | an unknown category is worth 50; a known one is worth rate × `parseInt(split('kg')[0] \|\| '1')`, or NaN when that is NaN; when the text before "kg" parses, the value is rate × that number |
| `WasteExchange.OfferPointsOfKilograms` | src/pages/WasteExchange.tsx:48 | "<n>kg…" is worth rate × n |
| `WasteExchange.OfferPointsOfNumberText` | src/pages/WasteExchange.tsx:47-48 | any text without the letter k that parses to a number, followed by "kg…", is worth rate × that number |
| `WasteExchange.OfferPointsOfPaddedKilograms` | src/pages/WasteExchange.tsx:47-48 | white space before "<n>kg…" does not change the value rate × n |
| `WasteExchange.OfferPointsOfNegativeKilograms` | src/pages/WasteExchange.tsx:47-48 | "-<n>kg…" parses to -n and is worth rate × -n, a debit when the offer is submitted |
| `WasteExchange.OfferPointsOfCount` | src/pages/WasteExchange.tsx:48 | a number followed by words and no "kg" ("20 bottles") is worth rate × the number |
| `WasteExchange.OfferPointsWithoutNumber` | src/pages/WasteExchange.tsx:48 | an empty quantity, or one that starts with "kg", counts as one kilogram |
| `WasteExchange.OfferPointsNaN` | src/pages/WasteExchange.tsx:48 | a quantity that starts with a letter is worth NaN points |
| `WasteExchange.FiveKgOfPlastic` | src/pages/WasteExchange.tsx:22-48 | five kilograms of plastic are worth 25 points |
| `WasteExchange.WithOfferField` | src/pages/WasteExchange.tsx:239-301 | each offer-form input sets its own field to the typed value, and every other field keeps its old value |
| `WasteExchange.WithOfferFieldOverrides` | src/pages/WasteExchange.tsx:239-301 | a second change of a field overrides the first |
| `WasteExchange.WithOfferFieldCommutes` | src/pages/WasteExchange.tsx:239-301 | changes of two different fields commute |
| `WasteExchange.FilterOffers` | src/pages/WasteExchange.tsx:39-43 | exactly the offers whose title contains the search term, ignoring case, and whose category is the selected one (any for "all"), kept in their input order |
| `WasteExchange.FilterOffersKeepsAll` | src/pages/WasteExchange.tsx:39-43 | an empty search with "all" lists every offer in order |
| `WasteExchange.FindOffer` | src/pages/WasteExchange.tsx:56 | `find` returns nothing exactly when no offer has the id, and otherwise the first offer that has it |
| `WasteExchange.ClaimEnabled` | src/pages/WasteExchange.tsx:210 | the claim button is disabled unless the offer is available, so never for a claimed offer |
| `WasteExchange.ClaimableFixtures` | src/pages/WasteExchange.tsx:210 | of the two listed offers, only offer 1 (available) can be claimed; offer 2 is already claimed |
| `WasteExchange.WasteExchangePage.constructor` | src/pages/WasteExchange.tsx:19-37 | an empty search, category "all" and the empty offer form |
| `WasteExchange.WasteExchangePage.FilteredOffers` | src/pages/WasteExchange.tsx:39-43 | the listed offers are a subsequence of the offers, in order, each matching the search and the category |
| `WasteExchange.WasteExchangePage.SetOfferField` | src/pages/WasteExchange.tsx:239-301 | the form becomes `WithOfferField` of the old form |
| `WasteExchange.WasteExchangePage.HandleOfferSubmit` | src/pages/WasteExchange.tsx:45-53 | credits `OfferPoints` of the form at once and resets the form |
| `WasteExchange.WasteExchangePage.ClaimOffer` | src/pages/WasteExchange.tsx:55-60 | finds the offer for the message and changes neither the page nor the balance |
| `WasteExchange.SubmitScenario` | src/pages/WasteExchange.tsx:45-53 | submitting "5kg" of plastic from the mounted balance credits 25, giving 175, and clears the form |
| `Sponsorships.CatalogWellFormed` | src/pages/Sponsorships.tsx:22-111 | catalog ids are distinct and every cost is positive |
| `Sponsorships.FilterByCategory` | src/pages/Sponsorships.tsx:116-118 | "All" gives the whole catalog; any other category gives exactly its items; either way the items keep their catalog order |
| `Sponsorships.Missing` | src/pages/Sponsorships.tsx:126 | the shortfall is a positive number when a numeric balance is too low, and NaN when the balance is NaN |
| `Sponsorships.SponsorshipsPage.constructor` | src/pages/Sponsorships.tsx:114 | nothing redeemed and category "All", so the whole catalog is listed |
| `Sponsorships.SponsorshipsPage.FilteredSponsorships` | src/pages/Sponsorships.tsx:116-118 | the cards are catalog items in catalog order, all of the selected category unless it is "All" |
| `Sponsorships.SponsorshipsPage.CanRedeem` | src/pages/Sponsorships.tsx:130 | `userPoints >= points` holds exactly for a numeric balance of at least the cost, never for NaN |
| `Sponsorships.SponsorshipsPage.IsRedeemed` | src/pages/Sponsorships.tsx:131 | `includes`: the id occurs in the redeemed list |
| `Sponsorships.SponsorshipsPage.RedeemEnabled` | src/pages/Sponsorships.tsx:217 | `!canRedeem(points) \|\| isRedeemed(id)` negated: the button is enabled exactly when the balance is a number covering the cost and the item is not yet redeemed |
| `Sponsorships.SponsorshipsPage.SelectCategory` | src/pages/Sponsorships.tsx:164 | sets the category, and the listed items become that category's filter of the catalog |
| `Sponsorships.SponsorshipsPage.HandleRedeem` | src/pages/Sponsorships.tsx:120-128 | when the balance covers the cost it debits the cost and appends the id; otherwise it reports the shortfall and changes nothing; a redemption leaves a non-negative balance |
| `Sponsorships.RedeemTwiceScenario` | src/pages/Sponsorships.tsx:120-131 | the button is disabled after a redemption, but the handler itself debits and records the same item again |
| `Community.AppendComment` | src/pages/Community.tsx:62-65 | the comment is appended to the end of its report's thread, which is created if missing; every other thread is unchanged and only that count grows by one |
| `Community.CommentsOf` | src/pages/Community.tsx:141 | `comments[id] \|\| []`: the report's thread, or the empty list for a report without one |
| `Community.CommentCount` | src/pages/Community.tsx:141 | the displayed count is zero exactly when the report has no thread or an empty one |
| `Community.InitialCommentCounts` | src/pages/Community.tsx:19-27 | the seeded threads show 2 comments on report 1, 1 on report 2 and none elsewhere |
| `Community.SearchReports` | src/pages/Community.tsx:29-32 | exactly the reports whose title or location contains the term, ignoring case, kept in their input order |
| `Community.EmptySearchKeepsAll` | src/pages/Community.tsx:29-32 | the empty search lists every report in order |
| `Community.StatusColor` | src/pages/Community.tsx:34-45 | the gray badge exactly for statuses other than reported, in_progress and resolved |
| `Community.StatusColorsDistinct` | src/pages/Community.tsx:34-45 | the three known statuses have three different badges |
| `Community.CommunityPage.constructor` | src/pages/Community.tsx:17-28 | an empty search, an empty draft, and the two seeded threads |
| `Community.CommunityPage.FilteredReports` | src/pages/Community.tsx:29-32 | the feed is a subsequence of the reports, in order, each matching the search term |
| `Community.CommunityPage.SetNewComment` | src/pages/Community.tsx:150 | typing replaces the draft and leaves the search term and the threads |
| `Community.CommunityPage.HandleAddComment` | src/pages/Community.tsx:52-68 | a blank draft changes nothing; otherwise the draft, as typed, is appended with the clock as id, and the draft is cleared |
| `Community.CommunityPage.HandleUpvote` | src/pages/Community.tsx:47-50 | changes no state |
| `Community.CommentScenario` | src/pages/Community.tsx:52-68 | a comment on a report without a thread starts one; a white-space draft afterwards is ignored and kept |
| `AdminDashboard.FilterReports` | src/pages/AdminDashboard.tsx:51-56 | exactly the reports whose status is the selected one (any for "all") and whose title or location contains the term |
| `AdminDashboard.FilterReportsKeepsOrder` | src/pages/AdminDashboard.tsx:51-56 | the table is an order-preserving subsequence of the report list |
| `AdminDashboard.FilterIgnoresWardAndDepartment` | src/pages/AdminDashboard.tsx:9-10 | the ward and department selections do not change the table |
| `AdminDashboard.AllStatusesIsCommunitySearch` | src/pages/AdminDashboard.tsx:51-56 | with "all" the table equals the community feed's search |
| `AdminDashboard.StatusColor` | src/pages/AdminDashboard.tsx:58-71 | the gray badge exactly for statuses other than reported, under_review, in_progress and resolved |
| `AdminDashboard.StatusColorInjective` | src/pages/AdminDashboard.tsx:58-71 | the four known statuses have four different badges |
| `AdminDashboard.PriorityColor` | src/pages/AdminDashboard.tsx:73-84 | the gray badge exactly for severities other than high, medium and low |
| `AdminDashboard.PriorityColorInjective` | src/pages/AdminDashboard.tsx:73-84 | the three severities have three different badges |
| `AdminDashboard.WardBadge` | src/pages/AdminDashboard.tsx:263-266 | green iff the score is at least 90, yellow iff 80 to 89, red iff below 80 |
| `AdminDashboard.WardBadgeMonotone` | src/pages/AdminDashboard.tsx:263-266 | a better score never gets a worse badge |
| `AdminDashboard.SwapWithPrevious` | src/pages/AdminDashboard.tsx:717 | exchanging two neighbours moves nothing else and keeps the multiset |
| `AdminDashboard.InsertDescending` | src/pages/AdminDashboard.tsx:717 | sinking one element into a sorted prefix extends the sorted prefix by one, keeps the multiset and leaves the rest |
| `AdminDashboard.SortDescendingBy` | src/pages/AdminDashboard.tsx:717 | the in-place sort with comparator `b.key - a.key` leaves a permutation of the old contents in non-increasing key order |
| `AdminDashboard.SortedHeadIsMaximum` | src/pages/AdminDashboard.tsx:717 | the first element of a sorted permutation is one of the originals and has the largest key of them |
| `AdminDashboard.CleanestWards` | src/pages/AdminDashboard.tsx:717 | the wards end up permuted in non-increasing score order |
| `AdminDashboard.MostEfficientDepartments` | src/pages/AdminDashboard.tsx:739 | the departments end up permuted in non-increasing efficiency order |
| `AdminDashboard.WardLeaderboardScenario` | src/pages/AdminDashboard.tsx:32-37 | the ward leaderboard of the fixtures is headed by the score 92 |
| `AdminDashboard.DepartmentLeaderboardScenario` | src/pages/AdminDashboard.tsx:39-43 | the department leaderboard of the fixtures is headed by the efficiency 97 |
| `AdminDashboard.AdminDashboardPage.constructor` | src/pages/AdminDashboard.tsx:6-10 | status "all", an empty search and "all" wards and departments, so every report is listed in order |
| `AdminDashboard.AdminDashboardPage.FilteredReports` | src/pages/AdminDashboard.tsx:51-56 | the table is a subsequence of the reports, in order, each listed by the current filters |
| `AdminDashboard.AdminDashboardPage.SetSelectedFilter` | src/pages/AdminDashboard.tsx:316 | sets only the status filter; with "all" the table is the community feed's search for the current term |
| `AdminDashboard.AdminDashboardPage.SetSearchTerm` | src/pages/AdminDashboard.tsx:309 | sets only the search term; under status "all" the table is the community feed's search for it |
| `AdminDashboard.AdminDashboardPage.SetSelectedWard` | src/pages/AdminDashboard.tsx:9 | choosing a ward leaves the listed reports as they were |
| `AdminDashboard.AdminDashboardPage.SetSelectedDepartment` | src/pages/AdminDashboard.tsx:10 | choosing a department leaves the listed reports as they were |
| `AdminDashboard.AdminDashboardPage.HandleStatusChange` | src/pages/AdminDashboard.tsx:86-88 | changes no state |
| `AdminDashboard.AdminDashboardPage.AssignToVolunteer` | src/pages/AdminDashboard.tsx:90-92 | changes no state |
| `AdminDashboard.AdminDashboardPage.EscalateReport` | src/pages/AdminDashboard.tsx:94-96 | changes no state |
| `Analytics.TrendBadge` | src/pages/Analytics.tsx:179 | red iff the trend text starts with '+', green otherwise |
| `Analytics.MaxValue` | src/pages/Analytics.tsx:194 | `Math.max` of a non-empty list is one of its elements and at least every element; there is none for the empty list |
| `Analytics.TimeSeriesMaximum` | src/pages/Analytics.tsx:46-53 | the chart is scaled to May's 145 reports |
| `Analytics.RoundHalfUp` | src/pages/Analytics.tsx:249 | `Math.round(num/den)` lies within half a unit of num/den, with halves rounded up |
| `Analytics.RoundHalfUpUnique` | src/pages/Analytics.tsx:249 | only one integer meets that condition, so it is the rounding |
| `Analytics.RoundHalfUpExact` | src/pages/Analytics.tsx:249 | an exact quotient rounds to itself |
| `Analytics.SuccessRate` | src/pages/Analytics.tsx:249 | for a non-zero report count, a percentage within half a unit of 100 × resolved/reports; for zero reports, +Infinity, -Infinity or NaN by the sign of resolved |
| `Analytics.SuccessRateInRange` | src/pages/Analytics.tsx:249 | with 0 ≤ resolved ≤ reports the rate lies in [0, 100] |
| `Analytics.SuccessRateMonotone` | src/pages/Analytics.tsx:249 | more resolved reports out of the same total never lower the rate |
| `Analytics.RateBadge` | src/pages/Analytics.tsx:272-278 | green iff the rate is at least 80 or +Infinity, yellow iff from 60 to below 80, red otherwise (including NaN) |
| `Analytics.AreaStatus` | src/pages/Analytics.tsx:290 | "Excellent" iff the score is at least 85, "Good" iff 70 to 84, "Needs Improvement" iff below 70 |
| `Analytics.AreaBadge` | src/pages/Analytics.tsx:283-289 | green iff at least 85, yellow iff 70 to 84, red iff below 70 |
| `Analytics.AreaStatusMatchesBadge` | src/pages/Analytics.tsx:283-290 | the label and the colour of the status column always agree |
| `Analytics.AreaBadgeMonotone` | src/pages/Analytics.tsx:283-290 | a better score never gets a worse status |
| `Analytics.AreaRatesOfFixtures` | src/pages/Analytics.tsx:37-44 | Koramangala's 41 of 45 shows 91% in green; Marathahalli's 45 of 71 shows 63% in yellow |

## Left out

- Browser I/O is not modelled; the handlers keep only their state effects. This covers:
  - the camera stream and canvas;
  - geolocation, with its `toFixed(6)` formatting;
  - the clipboard share;
  - `alert`, `console.log` and navigation.
  The camera's data URL and the formatted coordinates are parameters.
- `Math.random()`, `Date.now()`, `new Date().toISOString()` and the 3-second `setTimeout` of the voice note are parameters or separate callbacks. Their values are not modelled.
- `IssueReporting.ClassifySeverity`: the score is any `real`, not only the [0, 100) that `Math.random() * 100` produces. The classification does not depend on that range.
- `Analytics.SuccessRate`: computed exactly, with integers. The source divides in floating point before `Math.round`, and the model does not capture any rounding error of that division.
- The bar heights of the trend chart, which are floating-point layout.
- `Num` uses unbounded integers. JavaScript numbers lose precision beyond 2^53, and `parseInt` of a very long digit string yields a float or Infinity; neither is modelled.
- `Common.Lower`: ASCII case folding only. The source's `toLowerCase` is Unicode-aware.
- `App.AppContent`: the path is taken after the router's percent-decoding, which is not modelled. Route matching folds only ASCII letters. That is exact here: the route paths are lower-case ASCII, and a case-insensitive regular expression without the `u` flag never folds a non-ASCII character onto an ASCII one.
- The Supabase client creation in src/lib/supabase.ts is a call into a foreign library; only its mock fixtures are used.
- The pages that only present data are not part of this model: the landing page, the login form, the user dashboard, the profile, and the header's admin link (which repeats the route guard). The same goes for the tab state of every page.
- `AdminDashboard.SortDescendingBy`: stability is not stated. The model proves sorted order and permutation; `Array.prototype.sort` is stable, so ties keep their order in the source.
- `AdminDashboard.AdminDashboardPage.HandleStatusChange`, `AssignToVolunteer` and `EscalateReport` only log. No report status machine or escalation exists in the source.
- `WasteExchange.WasteExchangePage.HandleOfferSubmit` and `IssueReporting.IssueReportingPage.HandleSubmit`: the browser's constraint validation of `required` fields is not modelled, so the handlers are modelled on every form, including those the browser would block. The offer form requires category, quantity, title and location (src/pages/WasteExchange.tsx:237, 257, 272, 286), and the report form requires title and location (src/pages/IssueReporting.tsx:202, 221). From the page, `OfferPoints`' 50-point branch for an unknown category and the empty-quantity case of `OfferPointsWithoutNumber` are therefore never reached.
- `WasteExchange.WasteExchangePage.ClaimOffer` only alerts. Nobody is credited on a claim.
- `Sponsorships.SponsorshipsPage.HandleRedeem` does not refuse an item already redeemed. Only the button's `disabled` flag expresses at-most-once redemption, and the model keeps it that way.
