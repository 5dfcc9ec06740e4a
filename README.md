# Transzity client core, modelled in Dafny

Transzity is an Expo / React Native client for a Jakarta bus-information
service. This project models the logic under its screens:

- the **session store** (`context/UserContext.js`): a persisted `token` slot plus
  the in-memory `user` and `loading`, changed by `getProfile`, `login`,
  `register` and `logout`;
- the shared **request client** (`services/api.js`), whose interceptor attaches the
  stored token as a bearer credential in the form of section 2.1 of RFC 6750;
- the **crowding screen** (`app/keadaanBus.js`): the crowding-code mapping and the
  sort-then-deduplicate loop that builds one entry per bus, newest first;
- the **poll ticks** of the home, crowding, complaints and routes screens: each
  fetch replaces its snapshot only under stated conditions and always clears
  its loading flag;
- the **list filters**: complaints by owner and by deleted id, the author label
  and the item menu (`app/keluhanPage.js`), and the case-insensitive route search
  (`app/ruteBus.js`);
- the **sign-up checks** (`app/signUp.js`), the **login and forgot-password
  handlers** (`app/login.js`), and the **complaint form** with its uid guard and
  payload (`app/tambahKeluhan.js`).

JavaScript values are modelled in `Js` (`js.dfy`). This covers `undefined`,
`null`, truthiness, `||`, `.` that throws on `null`/`undefined`, `?.`, and `===`.
A `Value` carries no reference, so `Js.StrictEq` is `===` between values that
did not come from the same parse. Two such objects are never the same
reference, so they are never strictly equal. The one comparison in the client
that can meet the same reference twice is on complaint ids. There the model
restricts ids to primitive values other than null and undefined
(`Complaints.Id`), and `===` is plain
equality.

The session store (`Session.Store`), the request config (`Api.Config`) and the
state of the crowding, home, complaints, routes and complaint-form screens
(`Crowding.Screen`, `Home.Screen`, `Complaints.Page`, `Routes.RoutePage`,
`ComplaintForm.Form`) are classes. Their methods change fields step by step,
as the handlers do. The sign-up and login screens keep no state of their own
that the model needs: their handlers (`SignUp.HandleRegister`,
`LoginScreen.HandleLogin`) are methods that take the form fields as
parameters and act on the session store. Each session
method is specified by a step function on a `State` value. Its postcondition
says it takes exactly that step, and the lemmas about the store are stated on
those step functions.

Effects the client hands to libraries become parameters or results. These
are: responses and request errors (`Fetch`), a failing storage write or
removal (a `bool`), and alerts and navigation (`Ui`).

Three behaviours of the code are narrower than one might expect. The model
follows the code in each:

- **Logout.** One would expect logout to clear the in-memory user even when the
  storage removal fails. The code awaits `AsyncStorage.removeItem` before
  `setUser(null)`, so a failing removal throws with the user still set.
  `Session.LogoutStep` and `Session.LogoutOutcome` state exactly that.
- **Login and register.** One would expect a successful login or register to
  leave the user signed in. The code sets `user` to whatever the response holds.
  A response without a user leaves the session settled and signed out.
- **The register fallback.** It is taken when the top-level `token` is falsy. A
  token nested under `data` is ignored (`Session.RegisterIgnoresNestedData`).

## Model

| member | source | states |
|---|---|---|
| Js.Prop | app/index.js:44 | for a key that is not a built-in or inherited property, reading a field of a non-nullish value gives the object's own field, or undefined when it is missing or the value is not an object |
| Js.Member | app/tambahKeluhan.js:25 | `v.k` throws a TypeError exactly when `v` is null or undefined, and otherwise reads the field |
| Js.OptMember | context/UserContext.js:43 | `v?.k` never throws; it is undefined on a nullish `v` and the field otherwise |
| Js.Or | context/UserContext.js:29 | `a \|\| b` is `a` when truthy, else `b`; the result is truthy iff either operand is |
| Js.StrictEqSymmetric | app/keluhanPage.js:48 | `===` is symmetric; a value and an independently parsed copy of it are strictly equal exactly when it is a primitive |
| Js.PathAgreesWithOptPath | app/keluhanPage.js:24 | where a strict chain `v.k1.k2…` succeeds, the optional chain `v?.k1?.k2…` gives the same value; where it throws, the optional chain gives undefined |
| Js.OptPathOfUndefined | app/login.js:50 | an optional chain that starts from undefined stays undefined |
| Seqs.Filter | app/keluhanPage.js:48 | `Array.prototype.filter` never lengthens the list |
| Seqs.FilterMembers | app/keluhanPage.js:48 | an element is kept iff it occurs in the input and satisfies the predicate |
| Seqs.FilterAllSatisfy | app/keluhanPage.js:65 | every kept element satisfies the predicate |
| Seqs.FilterIsSubsequence | app/ruteBus.js:53 | the filtered list is an order-preserving subsequence of the input |
| Seqs.FilterMultiset | app/keluhanPage.js:48 | filtering keeps every occurrence of an element that satisfies the predicate and none of one that does not |
| Seqs.FilterKeepsAll | app/ruteBus.js:53-57 | a predicate true on every element keeps the whole list |
| Seqs.FilterExtensional | app/ruteBus.js:53-57 | predicates that agree on every element filter identically |
| Text.ToLower | app/ruteBus.js:55-56 | ASCII lower-casing keeps the length and maps each character |
| Text.ToUpper | app/ruteBus.js:55-56 | ASCII upper-casing keeps the length and maps each character |
| Text.LowerCharOfCaseChange | app/ruteBus.js:55-56 | lower-casing a character already lower-cased or upper-cased gives its lower-case form |
| Text.ToLowerOfCaseChange | app/ruteBus.js:55-56 | lower-casing is idempotent and undoes upper-casing |
| Text.IncludesEmpty | app/ruteBus.js:55 | `s.includes("")` holds for every `s` |
| Text.Utf16LengthBounds | app/signUp.js:42 | a string's `length` in UTF-16 code units is between its character count and twice it, and equals the count when no character is outside the BMP |
| Api.StoredToken | services/api.js:11 | reading the token slot gives the stored string exactly when the key is present |
| Api.HasToken | services/api.js:12 | `if (token)`: the slot holds a string and it is non-empty |
| Api.BearerValue | services/api.js:13 | the header value is "Bearer " followed by the token unchanged |
| Api.RequestHeaders | services/api.js:4-7 | the instance-level headers: a request starts from the client's JSON content type, overridden key by key by the caller's headers; a default the caller does not pass keeps its value |
| Api.WithBearer | services/api.js:12-15 | the interceptor adds the Authorization key exactly when the token is non-empty and no other key |
| Api.WithBearerSpec | services/api.js:12-15 | with a non-empty token Authorization becomes "Bearer " + token; without one the headers are unchanged; no other header changes either way |
| Api.CallerAuthorizationOverwritten | services/api.js:13 | a caller-supplied Authorization header is overwritten by the stored token |
| Api.WithBearerIdempotent | services/api.js:10-16 | running the interceptor twice with the same storage is the same as once |
| Api.Config.constructor | services/api.js:4-7 | a new request config carries the URL, the merged headers and the data |
| Api.Intercept | services/api.js:10-16 | the interceptor updates the passed config's headers in place by the bearer rule, keeps URL and data, and returns the same object |
| Api.BearerValueIsCredentials | services/api.js:13 | the header is well-formed RFC 6750 `credentials` exactly when the token is a `b64token` after any leading spaces; a `b64token` always gives one, and for a token not starting with a space the two are equivalent |
| Api.LeadingSpaceAbsorbed | services/api.js:13 | the token " a" is not a `b64token`, yet its header is `credentials`, because the separator absorbs the space |
| Api.ParseBearer | services/api.js:13 | a parsed Authorization value, re-rendered, gives the same header |
| Api.ParseBearerRoundTrip | services/api.js:13 | reading the token back out of the header gives the stored token |
| Session.Initial | context/UserContext.js:8-9 | the store starts with user null, loading true and the persisted storage |
| Session.PhaseOf | context/UserContext.js:8-9 | the session is Unknown while loading, then Authenticated or Anonymous by the user's truthiness (exactly one holds) |
| Session.ProfileUser | context/UserContext.js:14-32 | the user is null without a request or after a failed one, and is never undefined |
| Session.ProfileStep | context/UserContext.js:12-36 | getProfile only reads storage and always ends loading; the session is signed in exactly when the profile user is truthy |
| Session.LoginStep | context/UserContext.js:39-49 | login keeps loading; a throwing login changes nothing; a returning one returns the body and writes the token slot and no other key |
| Session.RegisterStep | context/UserContext.js:53-67 | register keeps loading; a throwing register changes nothing; a returning one writes the token slot and no other key |
| Session.LogoutStep | context/UserContext.js:70-73 | logout keeps loading and throws exactly when the removal fails, changing nothing then; otherwise the token slot and the user are gone |
| Session.ProfileHeaders | context/UserContext.js:20-24 | the profile request carries only Authorization = "Bearer " + token |
| Session.ProfileRequest | context/UserContext.js:14-24 | the profile request is issued iff the storage read succeeds and the token is non-empty, with that token's bearer header |
| Session.ProfileWithoutToken | context/UserContext.js:14-18 | without a usable token no request is issued, the user is null and loading ends false, whatever a response would have been |
| Session.ProfileOutcome | context/UserContext.js:29-35 | getProfile keeps the storage, always ends loading and settles the phase; a successful body gives `res.data.user \|\| res.data`; a failed read or request gives null |
| Session.ProfileHeaderAgreesWithInterceptor | context/UserContext.js:20-24 | the profile's own Authorization header equals the one the interceptor then writes |
| Session.LoginToken | context/UserContext.js:43 | `res.data.data?.token \|\| res.data.token`: the nested token when truthy, else the top-level one |
| Session.LoginUser | context/UserContext.js:47 | `res.data.user \|\| res.data.data?.user`: the top-level user when truthy, else the nested one |
| Session.LoginPrecedence | context/UserContext.js:43-47 | a successful login stores the nested `data.token` when truthy, else the top-level token, and sets the top-level `user` when truthy, else `data.user`; no other key of storage changes |
| Session.LoginFailureChangesNothing | context/UserContext.js:39-45 | a login that throws leaves the token slot and the user unchanged |
| Session.RegisterFallsBackToLogin | context/UserContext.js:60-62 | register without a truthy top-level token ends in exactly the state and result of login |
| Session.RegisterIgnoresNestedData | context/UserContext.js:60 | a token nested under `data` does not prevent the fallback to login |
| Session.RegisterWithToken | context/UserContext.js:64-66 | register with a top-level token stores it, sets the user to `res.data.user` and returns the body |
| Session.LogoutOutcome | context/UserContext.js:70-73 | logout removes the token slot and then clears the user; a failed removal throws with nothing changed |
| Session.OnlyProfileTouchesLoading | context/UserContext.js:39-73 | login, register and logout never change loading |
| Session.LogoutThenUnauthenticated | context/UserContext.js:70-73 | after logout the interceptor adds no Authorization header |
| Session.Store.constructor | context/UserContext.js:8-9 | the provider's store starts in the initial state |
| Session.Store.GetProfile | context/UserContext.js:12-36 | getProfile updates the store exactly as the profile step says and reports the request it issued |
| Session.Store.Login | context/UserContext.js:39-49 | login updates the store exactly as the login step says |
| Session.Store.Register | context/UserContext.js:53-67 | register updates the store exactly as the register step says, calling login for the fallback |
| Session.Store.Logout | context/UserContext.js:70-73 | logout updates the store exactly as the logout step says |
| Crowding.KondisiOf | app/keadaanBus.js:14-25 | a code strictly equal to 1 gives "sedang", to 2 gives "penuh", and every other value gives "lega" |
| Crowding.CardLabel | app/keadaanBus.js:47-56 | a condition inherited from `Object.prototype` (such as "toString") gives an undefined label; BusCard falls back to "Unknown" exactly for any other condition than "lega", "sedang" and "penuh" |
| Crowding.ToEntry | app/keadaanBus.js:189-195 | an entry copies the bus number, corridor, crowding code and timestamp of its report and labels the code |
| Crowding.SortDesc | app/keadaanBus.js:179-181 | the stable newest-first sort of the reports, as insertion of each report ahead of the equally old ones after it |
| Crowding.InsertPermutes | app/keadaanBus.js:179-181 | inserting a report adds exactly that report |
| Crowding.InsertSorted | app/keadaanBus.js:179-181 | inserting into a newest-first list keeps it newest first |
| Crowding.SortDescSpec | app/keadaanBus.js:179-181 | the sort orders the reports newest first and is a permutation of them |
| Crowding.Dedup | app/keadaanBus.js:183-197 | the deduplicated list is no longer than its input |
| Crowding.BusesSnoc | app/keadaanBus.js:187-188 | the bus set of a list grows by the last report's bus |
| Crowding.DedupCovers | app/keadaanBus.js:183-197 | every bus of the input has an entry and every entry's bus is in the input |
| Crowding.DedupUnique | app/keadaanBus.js:186-188 | no bus has two entries |
| Crowding.DedupFromFirstReports | app/keadaanBus.js:186-195 | each entry is copied from the first report of its bus |
| Crowding.FirstOfBusComesFirst | app/keadaanBus.js:186-188 | no report of a bus precedes that bus's first report |
| Crowding.DedupLatest | app/keadaanBus.js:179-189 | on newest-first input each entry has the latest timestamp of its bus |
| Crowding.DedupFromReports | app/keadaanBus.js:189-195 | each entry is copied from some report |
| Crowding.DedupOrdered | app/keadaanBus.js:179-197 | on newest-first input the entries stay newest first |
| Crowding.Snapshot | app/keadaanBus.js:179-197 | the published list is no longer than the response |
| Crowding.SnapshotSpec | app/keadaanBus.js:179-197 | the built list is unique per bus, covers every bus, gives each bus's latest timestamp from one of its reports, is newest first and no longer than the response, and never reaches BusCard's "Unknown" fallback |
| Crowding.BuildSnapshot | app/keadaanBus.js:183-197 | the `seen`-set loop over the sorted reports builds exactly the specified snapshot |
| Crowding.NextBusData | app/keadaanBus.js:177-200 | a rejected request, a body without `success` or one without an array keeps the old list; a changed list is no longer than the response's reports |
| Crowding.LastSuccessWins | app/keadaanBus.js:178-205 | after any run of ticks the list is the snapshot of the last response with `success` and an array, or the old list when there was none |
| Crowding.Screen.constructor | app/keadaanBus.js:171-172 | the screen starts with an empty list, loading |
| Crowding.Screen.FetchTick | app/keadaanBus.js:175-206 | a tick replaces the list only on `success` with an array of reports, and always ends loading |
| Home.PositionOf | app/index.js:47-52 | the marker takes the report's coordinates, corridor and bus number |
| Home.Usable | app/index.js:44-46 | the guard: a successful body with an array whose first report has truthy coordinates |
| Home.NextPosition | app/index.js:44-53 | the position changes to the first report's exactly when the body has `success`, an array, a first element and truthy coordinates on it; otherwise it is kept |
| Home.OnlyFirstReportCounts | app/index.js:45-46 | only the first report is examined; one without coordinates keeps the old position whatever follows |
| Home.PositionChangesOnlyWhenUsable | app/index.js:44-52 | a changed position comes from a usable response and carries its first report's corridor and bus number |
| Home.PositionPersists | app/index.js:41-60 | once a position is known no run of ticks loses it |
| Home.ViewOf | app/index.js:67-205 | exactly one view: the user's loading screen first, then the home tab, then on the map tab the spinner, "belum tersedia" without a position, or the map |
| Home.RedirectsToOnboarding | app/index.js:34 | the redirect condition: loading is over and the user is falsy |
| Home.RedirectIffAnonymous | app/index.js:33-37 | the onboarding redirect fires exactly in the Anonymous phase, so after every getProfile that finds no token |
| Home.Screen.constructor | app/index.js:24-25 | the home screen starts with no position, loading |
| Home.Screen.FetchTick | app/index.js:41-60 | a tick updates the position by the snapshot rule and always ends loading |
| Complaints.UserIdOf | app/keluhanPage.js:24 | the user id is the strict chain's `uid` where that succeeds and undefined where it would throw |
| Complaints.TabView | app/keluhanPage.js:45-49 | the tab's view is never longer than the list |
| Complaints.TabViewSpec | app/keluhanPage.js:43-50 | "explore" shows the full list; "mine" shows exactly the complaints whose owner is `===` the user id, in order and with their multiplicities, and none for a user id that is an object or array |
| Complaints.WithoutId | app/keluhanPage.js:65 | the list after a delete is never longer than before |
| Complaints.WithoutIdSpec | app/keluhanPage.js:65 | deleting removes exactly the complaints with that id, keeps the rest in order and with their multiplicities, and changes nothing when no complaint has it |
| Complaints.IsMine | app/keluhanPage.js:73 | `item.id_user === userId` |
| Complaints.DisplayName | app/keluhanPage.js:73-78 | own complaints show "Anda", others the author's email when truthy, else "Anonim"; the label is never falsy |
| Complaints.MenuOpenFor | app/keluhanPage.js:115 | the delete menu shows under the item whose id is `===` the open menu id |
| Complaints.ToggleMenu | app/keluhanPage.js:93 | pressing closes the item's open menu and otherwise opens it |
| Complaints.ToggleMenuSpec | app/keluhanPage.js:90-94 | no menu is open while none is selected; a press flips the pressed item's menu, leaves at most that item's menu open, and two presses from a closed menu or the item's own return to the start |
| Complaints.SignedInOwnership | app/keluhanPage.js:73-90 | for a signed-in user, only complaints with a truthy owner field count as their own or show the menu button |
| Complaints.Page.constructor | app/keluhanPage.js:17-21 | the page starts with empty lists, the explore tab, no menu, loading |
| Complaints.Page.GetKeluhan | app/keluhanPage.js:26-37 | a successful fetch sets both lists to the response, a failed one keeps both, and loading ends false |
| Complaints.Page.ApplyTabFilter | app/keluhanPage.js:43-50 | with a truthy user id the shown list becomes the tab's view; without one it is left as it was |
| Complaints.Page.HandleDelete | app/keluhanPage.js:62-70 | a successful delete filters the id out and closes the menu; a failed one changes nothing |
| Complaints.Page.SelectTab | app/keluhanPage.js:144-160 | the toggles select "explore" or "mine" and change nothing else |
| Complaints.Page.PressMenu | app/keluhanPage.js:90-94 | the button exists only on one's own complaints, and pressing it toggles the open menu |
| Routes.Matches | app/ruteBus.js:54-56 | the lower-cased search occurs in the lower-cased route number or route name |
| Routes.FilteredRoutes | app/ruteBus.js:53-57 | the filtered list is never longer than the routes |
| Routes.FilteredRoutesSpec | app/ruteBus.js:53-57 | a route is listed iff the lower-cased search occurs in its lower-cased number or name, in the original order and with its multiplicity |
| Routes.EmptySearchKeepsAll | app/ruteBus.js:53-57 | an empty search lists every route |
| Routes.SearchIgnoresCase | app/ruteBus.js:55-56 | a search and its ASCII upper- or lower-cased form list the same routes |
| Routes.ViewOf | app/ruteBus.js:61-66 | the spinner while loading, the filtered list while no route is selected, otherwise the selected route's detail |
| Routes.RoutePage.constructor | app/ruteBus.js:18-21 | the page starts with no routes, no selection, an empty search, loading |
| Routes.RoutePage.FetchRoutes | app/ruteBus.js:26-35 | routes are replaced on success and kept on failure, and loading ends false |
| Routes.RoutePage.FetchDetail | app/ruteBus.js:40-50 | the selection is replaced on success and kept on failure, loading ends false, and a truthy detail is shown |
| Routes.RoutePage.Back | app/ruteBus.js:107 | back clears the selection and returns to the filtered list |
| Routes.RoutePage.SetSearch | app/ruteBus.js:81-82 | typing sets the search text only |
| SignUp.EmailPattern | app/signUp.js:36 | the regular expression `^[^\s@]+@[^\s@]+\.[^\s@]+$`: an '@' and a later '.', with at least one plain character before, between and after |
| SignUp.EmailShape | app/signUp.js:36-37 | the same rule read off the string: a plain local part up to the first '@', and a plain domain with a '.' neither first nor last |
| SignUp.IndexOf | app/signUp.js:36 | the first index of a character that occurs |
| SignUp.ShapeGivesPattern | app/signUp.js:36 | the direct reading of the email rule implies a regex match |
| SignUp.PatternGivesShape | app/signUp.js:36 | a regex match implies the direct reading |
| SignUp.EmailShapeMatchesPattern | app/signUp.js:36-37 | the executable email check accepts exactly the strings `^[^\s@]+@[^\s@]+\.[^\s@]+$` matches |
| SignUp.EmailPatternHasOneAt | app/signUp.js:36 | an accepted email has exactly one '@' |
| SignUp.Validate | app/signUp.js:31-56 | the checks run in order (all fields, email, at least 6 UTF-16 units, confirmation) and the first failure alone decides the result |
| SignUp.ValidForm | app/signUp.js:36-56 | a valid form has one '@', a password of at least three characters, and an identical confirmation |
| SignUp.CheckAlert | app/signUp.js:31-54 | a failed check's alert is never one of the register outcome alerts |
| SignUp.CheckAlertInjective | app/signUp.js:31-54 | every failed check raises its own alert |
| SignUp.HandleRegister | app/signUp.js:30-66 | a failed check raises its alert without calling register; otherwise register is called with (email, password, name) and success shows the alert and replaces to /login |
| LoginScreen.HandleLogin | app/login.js:28-36 | navigate to "/" exactly when login does not throw, after getProfile; a throwing login shows "Login gagal" and leaves the session unchanged |
| LoginScreen.LoginFeedsProfile | app/login.js:30-31 | after a successful login getProfile sends the token just stored, and the session settles |
| LoginScreen.ForgotPassword | app/login.js:38-52 | an empty email warns and sends nothing; success shows the server's message or the default; failure shows `err.response.data.message` or "Terjadi kesalahan."; the message is never empty |
| LoginScreen.NetworkErrorIsGeneric | app/login.js:49-51 | an error without a response always shows the generic text |
| ComplaintForm.TagText | app/tambahKeluhan.js:81-104 | each tag has its fixed non-empty text |
| ComplaintForm.TagTextInjective | app/tambahKeluhan.js:81-104 | different tags write different texts |
| ComplaintForm.SubmitterId | app/tambahKeluhan.js:25 | the strict uid read throws on a nullish user, and where it succeeds it is the complaints page's user id; where it throws that id is undefined |
| ComplaintForm.Keys | app/tambahKeluhan.js:31-35 | the field names of a payload, in append order |
| ComplaintForm.Form.constructor | app/tambahKeluhan.js:19-21 | the form starts empty |
| ComplaintForm.Form.PressTag | app/tambahKeluhan.js:81-104 | a tag button replaces the complaint text wholesale and keeps the other fields |
| ComplaintForm.Form.SetKeluhan | app/tambahKeluhan.js:116 | typing sets the complaint text only |
| ComplaintForm.Form.SetNomorBus | app/tambahKeluhan.js:63 | typing sets the bus number only |
| ComplaintForm.Form.SetRute | app/tambahKeluhan.js:71 | typing sets the route only |
| ComplaintForm.Form.HandleSubmit | app/tambahKeluhan.js:23-45 | a throwing uid read gives the generic error and no upload; a falsy uid gives "User tidak ditemukan" and no upload; otherwise the payload is exactly id_user, keluhan_text, nomor_bus, rute with the form's values unchanged, and the upload's outcome decides the alert and the navigation |
| ComplaintForm.SubmittedComplaintIsMine | app/tambahKeluhan.js:25-32 | the form's submitter id and the complaints page's user id agree, so a complaint stored with it shows as "Anda" |

## Left out

- Rendering, styles and maps (`MapView`, `Marker`, `Polyline`) are not modelled: they are UI with no decision logic.
- Onboarding and the app layout (`app/onboarding.js`, `app/_layout.js`) are not modelled: they only navigate.
- Polling timers and their cleanup are not modelled. Each tick is one method call, and runs of ticks apply in order. The interleaving or out-of-order resolution of in-flight requests is concurrency and is left out.
- Network calls, AsyncStorage, `Alert`, the router and `FormData` are not modelled as libraries. Their outcomes are parameters: a `Fetch` result, a failing write or removal, and returned alerts and navigation. A failing `getItem` is modelled for getProfile only. The interceptor is given the storage map directly.
- `Api.Intercept`: the storage read is taken as succeeding. A rejected `getItem` inside the interceptor would reject the request; the model does not cover that.
- A non-string token reaching `AsyncStorage.setItem` counts as a refused write. The library refuses null and undefined. Treating numbers and objects the same way is a modelling choice.
- Response bodies are typed where only their shape matters: realtime reports, complaints and routes. A null body and a report that is not an object are outside the model. So are fields typed as strings that may hold other values: a route's `number` or `route_name`, whose `toLowerCase()` would throw (`app/ruteBus.js:55-56`); a report's `no_bus`, where the `Set` would merge every report with an undefined `no_bus` into one entry; and a report's `koridor`.
- Numbers are integers. `parseFloat` of coordinates, NaN and floating-point crowding codes are not modelled. Timestamps are the integers `new Date(...)` would give, and date formatting is left out.
- `Array.prototype.sort` is modelled as a stable sort returning a new list. The in-place update of the response array is not modelled, because nothing reads it afterwards.
- `Text.ToLower`: lower-cases ASCII letters only. Unicode case mapping is left out.
- Header names are compared case-sensitively. axios's case-insensitive header merging is left out.
- `Api.RequestHeaders`: covers the instance-level headers only. axios's global defaults (such as `Accept`) and its dropping of Content-Type on a request without a body are not modelled.
- `Js.Prop`: built-in and inherited properties are not modelled. Examples are a string's or array's `length`, index reads on strings and arrays, and `Object.prototype` members such as `constructor`. Every key the client reads is an own data field.
- `Complaints.Complaint`: the creation date is omitted, because it is only formatted for display.
- The React effect that re-applies the tab filter is modelled as an explicit `ApplyTabFilter` call. When React re-runs it is not modelled.
- `ComplaintForm.Form.HandleSubmit`: FormData's conversion of `id_user` to a string is not modelled, so the payload keeps the value as read.
- `SignUp.EmailPattern`: a full regular-expression engine is not modelled. The one pattern is written out as a predicate over the string.
- The `email`/`password` request bodies of login and register are not modelled. Only the arguments `register` is called with are recorded.
- `Complaints.Id`: complaint ids are primitive values other than null and undefined. An object or array id, which `===` would compare by reference, is not modelled. A nullish id makes the list's `item.id.toString()` key (`app/keluhanPage.js:182`) throw, so such a list is not modelled either.
- `Complaints.ToggleMenu`: ids are primitive, so an object id that opens its menu by reference is not modelled.
- `Complaints.ToggleMenuSpec`: states the toggle for primitive ids only; an object id is outside the model.
- `Complaints.WithoutIdSpec`: states the delete for primitive ids only; deleting by an object id's reference is not modelled.
- The base URL of the request client only prefixes request paths. The model keeps paths as the screens pass them.
- The provider's mount effect (`context/UserContext.js:75-77`) is not a member of its own. It is the first `Session.Store.GetProfile` call after the constructor.
- Console logging in the error handlers is not modelled, because it changes no state.
