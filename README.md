# Satellite data client: a verified model of its decision logic

This project models the client-side logic of a React web application
that is the front end of a satellite file archive. Users log in and pick a
satellite, then a subsystem, then a file. The application lists each file's
versions, shows their metadata and downloads them. The model covers:

- **The authentication context.** The identity lives in two browser stores, a
  durable one (`localStorage`) and a per-tab one (`sessionStorage`). Login
  picks one of them and logout clears both. While an identity with a token
  exists, a session monitor keeps three things going: an inactivity deadline
  of 19000 ms, a keep-alive ping sent at most once per 10000 ms, and a
  periodic status check that logs out when it fails.
- **The HTTP client wrapper.** This covers:
  - token injection into requests;
  - the session-expired handling of 401/403 responses;
  - the bounded wait for a token;
  - the client IP lookup with its fallbacks;
  - the allow-list classification of the client IP.
- **The IP validation hook** and its standalone network labeller.
- **The route guard.**
- **The dashboard's selection cascade.** This covers the per-file version map,
  the fallbacks to empty lists, and the URL and download-filename templates.
- **The file-search form** and its simulated search.
- **The recent-files widget's** sort order and reversal.

Each JavaScript file of the core is one Dafny module. Two helper modules hold
the JavaScript semantics the others rely on:

- `JsText`: `startsWith`, number-to-text conversion in templates, and
  `parseInt` as section 19.2.5 of ECMA-262 defines it.
- `Browser`: the two stores, and a window whose navigations are recorded
  instead of performed.

Remote calls are split at their `await`. A start method checks the guard,
raises its loading flag and records or returns the request it issued. A
separate arrival method takes the reply as a parameter. Times are natural
numbers (milliseconds) passed to every event.

Three behaviours of the code may surprise a reader, and the model keeps them:

- **Startup reads the durable store only.** One might expect an identity to
  be restored whenever a token is in either store. `AuthContext.InitialAuth`
  never consults the per-tab store. A login that was not remembered therefore
  does not survive a reload, even in the same tab.
- **Labels come from an ordered chain, not the longest prefix.** One might
  expect network classification to pick the longest matching prefix. The
  code, and so `Api.NetworkLabel` and `IpValidation.IdentifyNetwork`, use an
  ordered if/else chain in which the first test that holds wins.
- **Allow and label are computed independently.** The allow rule tests plain
  prefixes, so an address that merely extends a listed full address is
  allowed. Examples are `127.0.0.10` and `192.168.56.10`. The label chain
  tests different strings. `Api.AllowAndLabelDisagree` and
  `Api.AllowedButUnknown` state exactly where the two disagree.

## Model

All source paths are below `react_one_page/my-react-app/src/`.

| member | source | states |
|---|---|---|
| JsText.ParseInt | react_one_page/my-react-app/src/components/FileSearch.js:56-59 | definition: skip whitespace, take a sign, switch to radix 16 after `0x`, read the longest digit run, NaN when it is empty |
| JsText.ParseIntOfIntToString | react_one_page/my-react-app/src/components/FileSearch.js:56-59 | round trip: `parseInt` of an integer's decimal rendering gives back that integer |
| JsText.ParseIntNaN | react_one_page/my-react-app/src/components/FileSearch.js:56-59 | blank text, or text whose first non-blank character is neither a sign nor a digit, is NaN |
| JsText.ParseIntOfDigits | react_one_page/my-react-app/src/components/FileSearch.js:56-59 | text of decimal digits only reads as the number they spell, leading zeros included |
| JsText.IntToStringInjective | react_one_page/my-react-app/src/pages/SatelliteDashboard.js:256 | two integers with the same decimal rendering are equal |
| Browser.RemoveIdentity | react_one_page/my-react-app/src/context/AuthContext.js:42-47 | exactly the three identity keys are removed from a store; every other entry is kept with its value |
| Browser.RemoveIdentityIdempotent | react_one_page/my-react-app/src/context/AuthContext.js:42-47 | clearing a store twice is the same as clearing it once |
| Browser.Window.Navigate | react_one_page/my-react-app/src/context/AuthContext.js:52 | the path becomes the target, and the navigation is appended to the record |
| Browser.Window.ClearIdentity | react_one_page/my-react-app/src/api/api.js:53-58 | both stores lose the identity keys and nothing else |
| Api.SelectToken | react_one_page/my-react-app/src/api/api.js:20 | a token exists iff one store holds a truthy token; the durable store's token wins over the per-tab one |
| Api.WithAuthorization | react_one_page/my-react-app/src/api/api.js:25-27 | with a token, `Authorization` is `Token <token>`; no other header changes, and without a token the headers are unchanged |
| Api.InterceptRequest | react_one_page/my-react-app/src/api/api.js:18-29 | the same configuration object comes back, with its headers updated from the stores' token |
| Api.IsSessionExpired | react_one_page/my-react-app/src/api/api.js:44-47 | definition: a 401/403 with a body that says `expired`, `detail` `Invalid token` or `error` `Session expired` |
| Api.InterceptResponseError | react_one_page/my-react-app/src/api/api.js:36-68 | the error is always rejected unchanged; storage is cleared iff a 401/403 reports an expired or invalid session; the redirect happens only when the path is not already `/login`; otherwise the window is unchanged |
| Api.WaitForAuth | react_one_page/my-react-app/src/api/api.js:77-93 | at most `maxAttempts + 1` checks and at most one callback; the callback runs iff the last check found a token, and every earlier check found none |
| Api.WaitForAuthDefault | react_one_page/my-react-app/src/api/api.js:77 | with the default `maxAttempts = 5`: at most six checks and at most one callback, every check before the last found no token, exactly six checks when no token ever appears, and the callback iff the last check found a token |
| Api.GetClientIp | react_one_page/my-react-app/src/api/api.js:96-137 | the server's answer if it replied; else the external address; else loopback on `localhost`; else the error record |
| Api.PrefixChecks | react_one_page/my-react-app/src/api/api.js:148-151 | one check per allowed prefix, in order, each recording whether the IP starts with it |
| Api.AnyMatchIsAllowed | react_one_page/my-react-app/src/api/api.js:148-156 | `some(matches)` over the checks holds iff the IP starts with some allowed prefix |
| Api.NetworkLabel | react_one_page/my-react-app/src/api/api.js:159-162 | definition: the ordered label chain, loopback first |
| Api.AllowMessage | react_one_page/my-react-app/src/api/api.js:170-172 | definition: the message chosen by `isAllowed` |
| Api.Classify | react_one_page/my-react-app/src/api/api.js:146-178 | for a usable IP: allowed iff it starts with an allowed prefix; the label comes from the ordered chain; the message depends on `isAllowed` alone; debug holds the prefixes and checks |
| Api.ValidateClientIp | react_one_page/my-react-app/src/api/api.js:140-210 | every record is checked and names a network; an allowed record's IP matches a prefix; a usable IP is classified; any other IP result is denied, labelled Unknown, with its own IP and message or the fallbacks; a thrown read gives `127.0.0.1` / `Localhost` / `Development mode - localhost`, allowed, on `localhost`, and `error` / `Error` / `Error checking network authorization`, denied, elsewhere |
| Api.NonMatchingIpDenied | react_one_page/my-react-app/src/api/api.js:146-187 | an IP outside every allowed prefix is never reported allowed |
| Api.AllowAndLabelDisagree | react_one_page/my-react-app/src/api/api.js:148-162 | `192.168.56.10` is allowed, `192.168.56.2` is not, and both are labelled VirtualBox; `127.0.0.10` is allowed but labelled Unknown |
| Api.AllowedButUnknown | react_one_page/my-react-app/src/api/api.js:155-162 | an allowed address is labelled Unknown iff it strictly extends `127.0.0.1` |
| IpValidation.IdentifyNetwork | react_one_page/my-react-app/src/api/ipValidation.js:6-12 | each branch of the chain, with `10.72.177.` before the other `10.72.` subnets; the label is Unknown iff no test holds; the function is total and never empty |
| IpValidation.TenSeventyTwoPrefixes | react_one_page/my-react-app/src/api/ipValidation.js:7-8 | the EMI subnet is inside `10.72.`, which excludes the VirtualBox prefix and loopback |
| IpValidation.LabellersAgreeOutsideOtherSubnets | react_one_page/my-react-app/src/api/ipValidation.js:6-12 | the hook's labeller and the validator's label agree on every address except the non-EMI `10.72.` subnets |
| IpValidation.InitialIpStatus | react_one_page/my-react-app/src/api/ipValidation.js:16-23 | the status before any check: not checked, not allowed, no error and an empty debug object |
| IpValidation.HookErrorStatus | react_one_page/my-react-app/src/api/ipValidation.js:42-49 | the error path is checked, not allowed, and carries the error text |
| IpValidation.MergeStatus | react_one_page/my-react-app/src/api/ipValidation.js:35-39 | every field is copied; the network falls back to `identifyNetwork(ip)` only when empty |
| IpValidation.MergeKeepsValidatedStatus | react_one_page/my-react-app/src/api/ipValidation.js:35-39 | a record from the validator is stored unchanged, since it always names a network |
| IpValidation.IpValidationHook.constructor | react_one_page/my-react-app/src/api/ipValidation.js:16-23 | the initial status is neither checked nor allowed |
| IpValidation.IpValidationHook.Settle | react_one_page/my-react-app/src/api/ipValidation.js:26-50 | a resolved check stores the merged record; a rejected one stores the error status |
| AuthContext.InitialAuth | react_one_page/my-react-app/src/context/AuthContext.js:7-12 | an identity exists iff the durable store holds a truthy token; superuser iff the stored text is exactly `true`; the per-tab store is not read |
| AuthContext.StoreIdentity | react_one_page/my-react-app/src/context/AuthContext.js:18-27 | the three keys are written, with the flag as `String(bool)`; other entries are kept |
| AuthContext.RememberedLoginSurvivesReload | react_one_page/my-react-app/src/context/AuthContext.js:7-27 | round trip: what login writes to the durable store is exactly what startup reads back, when the token is non-empty |
| AuthContext.ResetInactivityTimer | react_one_page/my-react-app/src/context/AuthContext.js:100-118 | after a reset, the deadline is the activity time plus 19000 |
| AuthContext.ArmedTimers | react_one_page/my-react-app/src/context/AuthContext.js:63-66 | with `lastPingTime` starting at 0, the setup's reset pings iff the clock is past 10000 |
| AuthContext.SpacedExtend | react_one_page/my-react-app/src/context/AuthContext.js:106-111 | a ping more than 10000 after the last one keeps every pair of pings more than 10000 apart |
| AuthContext.Replay | react_one_page/my-react-app/src/context/AuthContext.js:100-117 | definition: an armed monitor driven by activity and timeout-check events, ended by the first check past the deadline |
| AuthContext.ActiveSessionNeverTimesOut | react_one_page/my-react-app/src/context/AuthContext.js:100-117 | if every event comes less than 19000 after the latest activity, no run logs out for inactivity |
| AuthContext.ReplayConsistent | react_one_page/my-react-app/src/context/AuthContext.js:100-117 | after any run, the pending deadline is still the last activity plus 19000 |
| AuthContext.CheckAfterRun | react_one_page/my-react-app/src/context/AuthContext.js:114-117 | a timeout check ends a live run exactly when the deadline has passed |
| AuthContext.IdleSessionTimesOut | react_one_page/my-react-app/src/context/AuthContext.js:113-117 | after a live run, a timeout check logs out iff it comes 19000 or more after the last activity |
| AuthContext.PingsThrottled | react_one_page/my-react-app/src/context/AuthContext.js:106-111 | however frequent the activity, pings are in order, pairwise more than 10000 apart, and later than 10000 after the previous ping |
| AuthContext.AuthProvider.constructor | react_one_page/my-react-app/src/context/AuthContext.js:6-13 | `auth` is read from the durable store, and monitoring is armed iff it holds a token |
| AuthContext.AuthProvider.StartMonitoring | react_one_page/my-react-app/src/context/AuthContext.js:57-133 | setup: one status check, the interval due 10000 later, and one timer reset from `lastPingTime = 0` |
| AuthContext.AuthProvider.StopMonitoring | react_one_page/my-react-app/src/context/AuthContext.js:136-143 | teardown removes the deadline, the interval and the listeners |
| AuthContext.AuthProvider.Login | react_one_page/my-react-app/src/context/AuthContext.js:15-30 | the keys go to exactly one store, chosen by `remember`; `auth` becomes the new identity; monitoring restarts iff the token is non-empty |
| AuthContext.AuthProvider.Logout | react_one_page/my-react-app/src/context/AuthContext.js:32-54 | the remote call is made iff a token existed; whatever it did, both stores lose the identity keys, `auth` and `sessionInfo` are null, monitoring stops and the page is `/login` |
| AuthContext.AuthProvider.Activity | react_one_page/my-react-app/src/context/AuthContext.js:100-125 | while monitoring, the last activity is `now` and the deadline is `now + 19000`; a ping happens iff more than 10000 have passed since the last one; the spacing invariant is kept |
| AuthContext.AuthProvider.Tick | react_one_page/my-react-app/src/context/AuthContext.js:114-117 | it logs out iff monitoring and the deadline has passed, which is at least 19000 after the last activity; otherwise nothing changes |
| AuthContext.AuthProvider.StatusIntervalTick | react_one_page/my-react-app/src/context/AuthContext.js:129 | while monitoring, one more status check every 10000 |
| AuthContext.AuthProvider.StatusResult | react_one_page/my-react-app/src/context/AuthContext.js:69-84 | a failed check always logs out; a successful one replaces `sessionInfo` only when `time_remaining` is non-zero |
| AuthContext.AuthProvider.PingResult | react_one_page/my-react-app/src/context/AuthContext.js:87-97 | only an HTTP 401 logs out; every other reply leaves all state unchanged |
| AuthContext.StatusFailureScenario | react_one_page/my-react-app/src/context/AuthContext.js:80-83 | a failed status check right after activity still logs out and clears the stores |
| ProtectedRoute.Guard | react_one_page/my-react-app/src/components/ProtectedRoute.js:5-17 | exactly one outcome: login without a token; dashboard for a non-superuser on an admin route; otherwise the children |
| ProtectedRoute.DefaultGuard | react_one_page/my-react-app/src/components/ProtectedRoute.js:5 | a default route never redirects to the dashboard, and renders iff a token exists |
| ProtectedRoute.DefaultIgnoresSuperuser | react_one_page/my-react-app/src/components/ProtectedRoute.js:5-16 | on a default route the superuser flag makes no difference |
| ProtectedRoute.NoTokenAlwaysLogin | react_one_page/my-react-app/src/components/ProtectedRoute.js:8-10 | without a token the outcome is the login redirect, whatever `adminOnly` is |
| LoginPage.LandingRoute | react_one_page/my-react-app/src/pages/login.js:40 | superusers land on the admin dashboard and everyone else on the dashboard |
| LoginPage.LoginErrorMessage | react_one_page/my-react-app/src/pages/login.js:43 | the server's error text if truthy, else the fixed message |
| LoginPage.ReloadRestoresOnlyRememberedLogin | react_one_page/my-react-app/src/context/AuthContext.js:7-27 | a reload restores a login iff it was remembered and carried a token |
| LoginPage.SubmitLoginAsWritten | react_one_page/my-react-app/src/pages/login.js:15-47 | as written, a successful login always goes to the durable store, whatever the checkbox says |
| LoginPage.SubmitLogin | react_one_page/my-react-app/src/pages/login.js:15-47 | corrected: the store follows the checkbox; a failed login changes nothing and sets the error text |
| LoginPage.UncheckedRememberRestoredAsWritten | react_one_page/my-react-app/src/pages/login.js:39 | as written, an unticked login is restored after a reload |
| LoginPage.UncheckedRememberForgottenOnReload | react_one_page/my-react-app/src/pages/login.js:39 | corrected, the same unticked login is gone after a reload |
| LoginPage.IdleLogoutScenario | react_one_page/my-react-app/src/context/AuthContext.js:113-117 | one millisecond before the deadline nothing happens; at the deadline the session is logged out, the per-tab store cleared and the page is `/login` |
| SatelliteDashboard.ErrorText | react_one_page/my-react-app/src/pages/SatelliteDashboard.js:68 | the server's `detail` if truthy, else the error's message |
| SatelliteDashboard.SubsystemIds | react_one_page/my-react-app/src/pages/SatelliteDashboard.js:62 | one id per item, in order |
| SatelliteDashboard.SubsystemIdsAppend | react_one_page/my-react-app/src/pages/SatelliteDashboard.js:62 | mapping to ids distributes over concatenation |
| SatelliteDashboard.SubsystemsUrl | react_one_page/my-react-app/src/pages/SatelliteDashboard.js:57-59 | definition: the subsystems URL template |
| SatelliteDashboard.FilesUrl | react_one_page/my-react-app/src/pages/SatelliteDashboard.js:107-109 | definition: the files URL template |
| SatelliteDashboard.VersionsUrl | react_one_page/my-react-app/src/pages/SatelliteDashboard.js:159 | definition: the versions URL template |
| SatelliteDashboard.MetadataUrl | react_one_page/my-react-app/src/pages/SatelliteDashboard.js:212 | definition: the metadata URL template |
| SatelliteDashboard.DownloadUrl | react_one_page/my-react-app/src/pages/SatelliteDashboard.js:246 | definition: the download URL template |
| SatelliteDashboard.DownloadName | react_one_page/my-react-app/src/pages/SatelliteDashboard.js:256 | definition: the `sat{S}_sub{B}_file{F}_v{V}.bin` filename |
| SatelliteDashboard.JsonString | react_one_page/my-react-app/src/pages/SatelliteDashboard.js:192 | definition: `JSON.stringify` of a plain string |
| SatelliteDashboard.VersionsErrorText | react_one_page/my-react-app/src/pages/SatelliteDashboard.js:186-193 | definition: the versions error text, from the error body or else the error message |
| SatelliteDashboard.DownloadNameInjective | react_one_page/my-react-app/src/pages/SatelliteDashboard.js:256 | distinct (satellite, subsystem, file, version) tuples get distinct `sat{S}_sub{B}_file{F}_v{V}.bin` names |
| SatelliteDashboard.UrlsNest | react_one_page/my-react-app/src/pages/SatelliteDashboard.js:159-246 | the download URL extends the metadata URL, which extends the versions URL, which extends the files URL |
| SatelliteDashboard.WithVersions | react_one_page/my-react-app/src/pages/SatelliteDashboard.js:167-170 | one key is set; every other key keeps its value |
| SatelliteDashboard.WithoutVersions | react_one_page/my-react-app/src/pages/SatelliteDashboard.js:133-137 | one key is removed; every other key keeps its value |
| SatelliteDashboard.ShowThenHide | react_one_page/my-react-app/src/pages/SatelliteDashboard.js:130-170 | hiding what was just shown restores the map without that file |
| SatelliteDashboard.HideThenShow | react_one_page/my-react-app/src/pages/SatelliteDashboard.js:130-170 | hiding and then showing is the same as showing |
| SatelliteDashboard.VersionsFromReply | react_one_page/my-react-app/src/pages/SatelliteDashboard.js:166-199 | the reply's data on a success status, `[]` for a success without data, `[]` on any other shape or an error |
| SatelliteDashboard.RequestUrl | react_one_page/my-react-app/src/pages/SatelliteDashboard.js:31-249 | definition: the URL each recorded request fetches |
| SatelliteDashboard.Dashboard.constructor | react_one_page/my-react-app/src/pages/SatelliteDashboard.js:7-22 | initial state: empty lists and map, no selection, no flag raised |
| SatelliteDashboard.Dashboard.FetchSatellites | react_one_page/my-react-app/src/pages/SatelliteDashboard.js:25-43 | only with `auth`: raises the satellites flag alone and issues the list request |
| SatelliteDashboard.Dashboard.SatellitesArrived | react_one_page/my-react-app/src/pages/SatelliteDashboard.js:30-39 | the list or `[]`; on failure the fixed message; only the satellites flag drops |
| SatelliteDashboard.Dashboard.SelectSatellite | react_one_page/my-react-app/src/pages/SatelliteDashboard.js:47-76 | a changed, truthy selection with `auth` resets the subsystem, the files and the version map, then fetches subsystems; otherwise nothing else changes |
| SatelliteDashboard.Dashboard.ChooseSatellite | react_one_page/my-react-app/src/pages/SatelliteDashboard.js:296 | the selection is `parseInt` of the option, with the full `SelectSatellite` outcome for it: with `auth`, a truthy, changed value resets the subsystem, the files and the version map, raises the subsystems flag and records the request; otherwise only the selection changes |
| SatelliteDashboard.Dashboard.SubsystemsArrived | react_one_page/my-react-app/src/pages/SatelliteDashboard.js:56-72 | the ids in order, or the `Erreur:` message with the list kept; only the subsystems flag drops, and then the preselection runs on a new list; when it applies and changes the selection under a truthy satellite, it resets the version map, raises the files flag and records the files request; otherwise nothing else changes |
| SatelliteDashboard.Dashboard.SelectSubsystem | react_one_page/my-react-app/src/pages/SatelliteDashboard.js:99-127 | a changed, truthy subsystem under a truthy satellite with `auth` resets the version map and fetches files; otherwise nothing else changes |
| SatelliteDashboard.Dashboard.ChooseSubsystem | react_one_page/my-react-app/src/pages/SatelliteDashboard.js:314 | the selection is `parseInt` of the option, with the full `SelectSubsystem` outcome: under the files guard the version map is reset, the files flag raised and the request recorded; otherwise only the selection changes |
| SatelliteDashboard.Dashboard.FilesArrived | react_one_page/my-react-app/src/pages/SatelliteDashboard.js:106-123 | `files` or `[]` when absent; `[]` and a message on error; only the files flag drops |
| SatelliteDashboard.Dashboard.PreselectSatellite | react_one_page/my-react-app/src/pages/SatelliteDashboard.js:78-87 | with a non-empty result list, the full `SelectSatellite` outcome for the first result's satellite; otherwise nothing changes |
| SatelliteDashboard.Dashboard.PreselectSubsystem | react_one_page/my-react-app/src/pages/SatelliteDashboard.js:89-96 | when the first result's subsystem is truthy and in the loaded list, the full `SelectSubsystem` outcome for it; a changed selection is always in the list; otherwise nothing changes |
| SatelliteDashboard.Dashboard.SearchResultsChanged | react_one_page/my-react-app/src/pages/SatelliteDashboard.js:78-96 | a new results prop is stored and both preselect effects run again: empty results change nothing; otherwise the first result's satellite is selected, with the subsystems fetch and cascade reset when it changes, and then its subsystem when it is among the loaded ones, with the files fetch |
| SatelliteDashboard.Dashboard.ToggleVersions | react_one_page/my-react-app/src/pages/SatelliteDashboard.js:130-149 | a shown file loses only its own entry and nothing is fetched; a hidden file keeps the map and gets the full `getFileVersions` outcome: under the guard the metadata clears, the versions flag rises and the versions URL is requested, otherwise nothing changes |
| SatelliteDashboard.Dashboard.GetFileVersions | react_one_page/my-react-app/src/pages/SatelliteDashboard.js:152-162 | a no-op unless auth, satellite, subsystem and file id are truthy; otherwise it clears the metadata, raises the versions flag alone, and requests the versions URL |
| SatelliteDashboard.Dashboard.VersionsArrived | react_one_page/my-react-app/src/pages/SatelliteDashboard.js:162-202 | only this file's entry changes, to the data, `[]` when there is none, or `[]` on an unexpected shape or error, each with its message; only the versions flag drops |
| SatelliteDashboard.Dashboard.GetFileMetadata | react_one_page/my-react-app/src/pages/SatelliteDashboard.js:205-215 | a no-op unless every id is truthy; otherwise it raises the metadata flag alone and requests the metadata URL |
| SatelliteDashboard.Dashboard.MetadataArrived | react_one_page/my-react-app/src/pages/SatelliteDashboard.js:215-236 | the data or `{}` on success; otherwise the metadata is kept and the message set; only the metadata flag drops |
| SatelliteDashboard.Dashboard.DownloadFile | react_one_page/my-react-app/src/pages/SatelliteDashboard.js:239-249 | a no-op unless every id is truthy; otherwise it raises the download flag alone and requests the download URL |
| SatelliteDashboard.Dashboard.DownloadArrived | react_one_page/my-react-app/src/pages/SatelliteDashboard.js:249-274 | the file is saved under the name built from the captured ids; a failure sets the message; only the download flag drops |
| SatelliteDashboard.Dashboard.DismissError | react_one_page/my-react-app/src/pages/SatelliteDashboard.js:352 | the error is cleared |
| SatelliteDashboard.Dashboard.CloseMetadata | react_one_page/my-react-app/src/pages/SatelliteDashboard.js:451 | the metadata is cleared |
| SatelliteDashboard.SelectionCascadeScenario | react_one_page/my-react-app/src/pages/SatelliteDashboard.js:51-54 | after a subsystem, files and versions are loaded, picking another satellite clears all three |
| SatelliteDashboard.NewSearchResultsScenario | react_one_page/my-react-app/src/pages/SatelliteDashboard.js:89-96 | a later search naming the other loaded subsystem of the shown satellite switches to that subsystem and fetches its files |
| FileSearch.WithField | react_one_page/my-react-app/src/components/FileSearch.js:32-38 | only the named field changes |
| FileSearch.WithFieldOverwrites | react_one_page/my-react-app/src/components/FileSearch.js:32-38 | the last write to a field wins, and writes to different fields commute |
| FileSearch.IdOrDefault | react_one_page/my-react-app/src/components/FileSearch.js:56-59 | `parseInt(text) \|\| d`: the default for NaN and 0, the parsed id otherwise; never 0 when the default is not |
| FileSearch.IdOrDefaultOfNumeral | react_one_page/my-react-app/src/components/FileSearch.js:56-59 | a typed non-zero numeral gives exactly that id |
| FileSearch.ZeroFallsBack | react_one_page/my-react-app/src/components/FileSearch.js:56-59 | a typed `"0"` is falsy and gives the default |
| FileSearch.NonNumericFallsBack | react_one_page/my-react-app/src/components/FileSearch.js:56-59 | blank text, and text whose first non-blank character is neither a sign nor a digit, gives the default |
| FileSearch.PaddedOneParsesToOne | react_one_page/my-react-app/src/components/FileSearch.js:56 | `"01"` parses to 1 |
| FileSearch.SatelliteName | react_one_page/my-react-app/src/components/FileSearch.js:57 | `UM5-EOSAT` iff the raw text is exactly `"1"` |
| FileSearch.SimulatedResults | react_one_page/my-react-app/src/components/FileSearch.js:51-62 | no result when all fields are empty, otherwise exactly one, with the defaulted ids, the name rule and the fixed date |
| FileSearch.PaddedIdNamesOtherSatellite | react_one_page/my-react-app/src/components/FileSearch.js:56-57 | `"01"` gives satellite id 1 but the name `MOHAMMEDIA-SAT` |
| FileSearch.FileSearchForm.constructor | react_one_page/my-react-app/src/components/FileSearch.js:10-14 | the three fields start empty |
| FileSearch.FileSearchForm.HandleInputChange | react_one_page/my-react-app/src/components/FileSearch.js:32-38 | the parameters become the field-wise update |
| FileSearch.FileSearchForm.HandleSearch | react_one_page/my-react-app/src/components/FileSearch.js:40-72 | nothing without `auth`; otherwise the simulated results are reported once and loading ends false |
| FileSearch.FileSearchForm.ClearSearch | react_one_page/my-react-app/src/components/FileSearch.js:74-81 | all fields are empty and `null` is reported |
| RecentFilesWidget.Toggle | react_one_page/my-react-app/src/components/RecentFilesWidget.js:86 | the order always changes |
| RecentFilesWidget.ToggleInvolution | react_one_page/my-react-app/src/components/RecentFilesWidget.js:85-87 | toggling twice restores the order |
| RecentFilesWidget.Reversed | react_one_page/my-react-app/src/components/RecentFilesWidget.js:59 | same length, and element `i` is the source's element `n-1-i` |
| RecentFilesWidget.ReversedSameElements | react_one_page/my-react-app/src/components/RecentFilesWidget.js:59 | reversal is a permutation: same multiset |
| RecentFilesWidget.ReversedInvolution | react_one_page/my-react-app/src/components/RecentFilesWidget.js:59 | reversing twice gives the source back |
| RecentFilesWidget.Arranged | react_one_page/my-react-app/src/components/RecentFilesWidget.js:57-59 | definition: order `desc` shows the list as given, `asc` shows its reverse |
| RecentFilesWidget.ToggleReversesArrangement | react_one_page/my-react-app/src/components/RecentFilesWidget.js:57-59 | flipping the order shows the exact reverse of what was shown, with the source's elements |
| RecentFilesWidget.ArrangedCopy | react_one_page/my-react-app/src/components/RecentFilesWidget.js:57-59 | the in-place reversal of a fresh copy yields `desc`: the source, `asc`: its reverse |
| RecentFilesWidget.RecentFiles.constructor | react_one_page/my-react-app/src/components/RecentFilesWidget.js:8-11 | it starts loading, with no error and order `desc` |
| RecentFilesWidget.RecentFiles.StartFetch | react_one_page/my-react-app/src/components/RecentFilesWidget.js:13-18 | nothing without `auth`; otherwise loading with the error cleared, for the current order |
| RecentFilesWidget.RecentFiles.ToggleSortOrder | react_one_page/my-react-app/src/components/RecentFilesWidget.js:85-87 | the order flips and the fetch restarts for the new order |
| RecentFilesWidget.RecentFiles.FetchArrived | react_one_page/my-react-app/src/components/RecentFilesWidget.js:56-79 | the arranged list, or `[]` with the connection error; loading is false afterwards |

## Findings

| source | as written | input that shows it | evidently intended | confidence | as-written member | corrected member |
|---|---|---|---|---|---|---|
| react_one_page/my-react-app/src/pages/login.js:39 | `login` receives five arguments, and the session-data object sits in its fourth parameter, `remember`. The object is always truthy, so every login goes to the durable store. | a successful login with "remember me" unticked, followed by a reload | the checkbox value is `login`'s `remember` argument, so an unticked login lives in the per-tab store only | high; not executed | LoginPage.UncheckedRememberRestoredAsWritten | LoginPage.SubmitLogin |

For the finding, `LoginPage.SubmitLoginAsWritten` models the handler as
written. `LoginPage.UncheckedRememberRestoredAsWritten` shows that the login
survives the reload. `LoginPage.UncheckedRememberForgottenOnReload` and
`LoginPage.ReloadRestoresOnlyRememberedLogin` prove that the corrected handler
restores a login only when it was remembered.

## Left out

- Rendering, styling and layout are not modelled. This covers the JSX of
  every component, the dashboard pages around these components, the security
  banner, the navigation bar and the route table.
- Real HTTP, axios internals, the external IP service and the Blob download
  mechanics are not modelled. Every reply is a parameter: success with data,
  an error with a status and body, or a transport error. A reply whose body
  lacks a field that the code then dereferences throws inside the `try`. It
  is modelled as a failed reply.
- Real timers and `Date.now()` are not modelled. The clock is a parameter of
  every AuthContext event. The 200 ms spacing of `waitForAuth` is abstracted
  into the index of `storageAt`. The 800 ms delay of the recent-files fetch is
  the gap between `StartFetch` and `FetchArrived`.
- Interleavings of in-flight responses are not modelled. Each arrival applies
  to the state it finds, and the dashboard's requests carry the values their
  closure captured. One example: picking a new satellite while a subsystem is
  selected also runs the files effect once with the old subsystem. That extra
  fetch is not modelled.
- Stale closures from React state batching are not modelled. `toggleVersions`
  reads the `fileVersions` of the last render, and the model uses the current
  map.
- AuthContext.AuthProvider.StatusResult: a status reply that arrives after
  monitoring was torn down is ignored. In the source, the torn-down closure
  would still call `logout`.
- AuthContext.AuthProvider.PingResult: a ping reply that arrives after
  teardown is ignored, for the same reason.
- AuthContext.AuthProvider.Logout: the awaited remote call and the clearing
  that follows it are one step. The call's outcome is not a parameter,
  because the `finally` block runs either way.
- The AuthContext's own calls to check, ping and log out go through the
  response interceptor in the source. The model does not chain
  `Api.InterceptResponseError` into `StatusResult` or `PingResult`.
- The browser stores are fields of the shared `Browser.Window`, not of the
  provider, because the interceptors in `api.js` read and clear the same
  stores.
- The `auth` of the dashboard, the search form and the widget is fixed for
  the component's lifetime. Effects that re-run when `auth` changes are not
  modelled.
- SatelliteDashboard.Dashboard.SearchResultsChanged: the two preselect effects run one after the
  other on the live state. In the source their updates land together, and the
  subsystems effect of the next render then clears the subsystem again when the
  satellite changed. So when the satellite changes and the new subsystem is in
  the old list, the model keeps that subsystem selected, and the source selects
  it again only after the new subsystems arrive.
- FileSearch's own satellites fetch, which fills a drop-down and swallows
  errors (`FileSearch.js:17-30`), is not modelled.
- JsText.ParseInt: the result is an exact integer, so the rounding of values
  beyond 2^53 to a double is not modelled.
- JsText.IntToString: every integer is written in plain decimal digits. JavaScript
  writes a number of magnitude 1e21 or more in exponential form, so the URLs and
  `DownloadName` built from such ids differ from the source's.
- SatelliteDashboard.JsonString does not escape quotes, backslashes or control
  characters the way `JSON.stringify` does.
- AuthContext.SessionInfo keeps `expires_at` as the server's text, and
  `new Date(...)` is not modelled. An absent `time_remaining` is 0.
- Api.WithAuthorization: header names are exact map keys, so axios's
  case-insensitive header handling is not modelled.
- The six DOM activity event types are one `Activity(now)` event, and the
  `console` logging is not modelled.
- The recent-files widget's hard-coded mock list is not modelled. It is
  replaced by an arbitrary source list.
- IpValidation.IpValidationHook.Settle: the rejected outcome is kept as in
  the source, although `validateClientIP` catches every error itself.
