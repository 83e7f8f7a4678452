# BrowserTab plugin: a verified model in Dafny

This project models the Android side of the BrowserTab Cordova plugin
(`src/android/BrowserTab.java`): how it picks an installed browser that can
host a custom tab, and how its tab session reacts to `openUrl` and to the
three lifecycle signals the operating system delivers in any order
(`onNewIntent`, `onActivityResult`, `onResume`).

The source file holds two versions of the class. Lines 35-110 are an older
copy (its `openUrl` and a resolver that caches only a hit); line 110 closes
the class early, and lines 112-283 are the newer version. The model follows
the newer version and keeps the older resolver only to compare the caching.

Modules:

- `Wrappers` (wrappers.dfy): `Option`, standing in for nullable references.
- `Resolver` (resolver.dfy): a resolved handler (`Candidate`: package name,
  VIEW action, BROWSABLE category, optional scheme list, optional authority
  list, warmup-service probe answer), the full-browser filter as a predicate
  and as the imperative `IsFullBrowser` loop, the first-host search
  `FirstHost`, and the resolver cache (`mCustomTabsBrowser`, `mFindCalled`)
  as `Find`, next to the older `LegacyFind`.
- `TabSession` (session.dfy): the plugin state (resolver cache,
  `lastScheme`, `callbackContext`, `isInvokedActivitResultClose`), the
  events the plugin emits (`Opened`, `Returned`, `Closed`, `Error`,
  `Launched`, `CloseTabRequested`) and one function per entry point giving
  the next state and the events emitted, with the lemmas each entry point
  promises.
- `Protocol` (protocol.dfy): the log invariant. Every terminal result
  ("returned" to a callback, or "closed") answers the latest "opened" that
  has no terminal result yet. Every entry point keeps it. Over any sequence
  of opens and lifecycle signals, no two terminal results are sent without
  an open between them.
- `Scenarios` (scenarios.dfy): concrete runs. Open then return. Open then
  close. Activity result, then return, then resume. A foreign request code.
  A return after a close. An open without a capable browser.
- `BrowserTabPlugin` (browser_tab.dfy): the class `BrowserTab` with the
  source's fields, updated in place by `FindCustomTabBrowser` (a `for` loop
  with `continue` and `break`), `OpenUrl`, `OnNewIntent`, `OnResume`,
  `OnActivityResult` and `SendOpenResult`. `FindCustomTabBrowser` returns
  and caches exactly what `Resolver.Find` gives. `SendOpenResult` appends one
  "opened". The contracts of `OpenUrl`, `OnNewIntent`, `OnResume` and
  `OnActivityResult` tie the new fields and the appended events to the
  `TabSession` function of the same entry point. These four methods also
  keep the `Protocol` invariant.

Inputs that stand for Android calls: the result of
`queryIntentActivities`, which is the `candidates` sequence; the
`resolveService` probe, which is `Candidate.hasWarmupService`; the intent
data of `onNewIntent`, which is an optional string; the request code; and a
callback handle, which is a number. The launch, the callback results and
`closeCustomTab()` are events appended to the log.

Behaviour of the code that the model keeps:

- With no capable browser, `openUrl` reports the error and then still
  launches, stores the callback and sends "opened"
  (`TabSession.OpenUrlWithoutBrowserStillOpens`).
- The URL is never checked. "URL argument is not a string" is reported when
  argument 0 cannot be read as a string, and also when the options object
  (argument 1) is missing.
- `lastScheme` survives from one open to the next unless a non-empty scheme
  replaces it, and `onNewIntent` sends "returned" even when no callback is
  pending (`Scenarios.ReturnAfterCloseHasNoCallback`).

## Model

| member | source | states |
|---|---|---|
| `Resolver.IsFullBrowser` | src/android/BrowserTab.java:247-276 | returns true exactly when the filter has VIEW and BROWSABLE, declares schemes, declares no authorities, and lists both "http" and "https"; false in every other case |
| `Resolver.FirstHost` | src/android/BrowserTab.java:232-241 | None exactly when no handler is a full browser with the warmup service; otherwise the package of the first such handler in list order |
| `Resolver.FirstHostIsFirst` | src/android/BrowserTab.java:232-241 | whenever handler i is the first that can host a tab, the search returns its package |
| `Resolver.NoDualSchemeHandlerNoHost` | src/android/BrowserTab.java:260-275 | if no handler declares both web schemes, the search finds nothing |
| `Resolver.FindMarksRun` | src/android/BrowserTab.java:237-244 | after any call the resolver is marked as run and caches exactly the answer it returned |
| `Resolver.FindFirstRun` | src/android/BrowserTab.java:225-244 | the first call on a fresh cache returns the first host of the candidate list |
| `Resolver.FindIsCached` | src/android/BrowserTab.java:220-223 | once the resolver has run, a later call returns the cached answer (a miss included) and changes nothing, whatever the candidate list |
| `Resolver.FirstWithService` | src/android/BrowserTab.java:88-95 | older search: None exactly when no handler has the warmup service; otherwise the package of the first that has it, with no full-browser filter |
| `Resolver.MissCachedOnlyByNewer` | src/android/BrowserTab.java:79-82 | after a miss, the newer resolver (`Resolver.Find`) keeps answering None when a capable browser appears later; the older one (`Resolver.LegacyFind`, lines 79-96), which caches only hits, finds it |
| `TabSession.NewIntentReturnsOnce` | src/android/BrowserTab.java:115-126 | a url that starts with lastScheme emits one "returned" with that url, to the callback then current, followed at most by a close request; scheme and callback are cleared, the flag is false, the cache is unchanged |
| `TabSession.NewIntentIgnoresOthers` | src/android/BrowserTab.java:115-117 | onNewIntent changes nothing and emits nothing exactly when the scheme is unset, the data is missing, or the url does not start with the scheme |
| `TabSession.CloseRequestedOnlyWithoutActivityResult` | src/android/BrowserTab.java:121-124 | the tab is asked to close exactly when the url matches and the activity-result flag was false on entry |
| `TabSession.ActivityResultOnlySetsFlag` | src/android/BrowserTab.java:179-184 | onActivityResult never emits; it sets the flag for the custom-tab request code and changes nothing otherwise |
| `TabSession.ResumeClosesOnce` | src/android/BrowserTab.java:131-138 | onResume sends "closed" to the pending callback exactly when one is pending and the flag is set, then clears both and changes nothing else (scheme and cache kept); otherwise nothing changes |
| `TabSession.NoSecondClose` | src/android/BrowserTab.java:133-137 | a second onResume, or one after a "returned", emits nothing |
| `TabSession.OpenUrlClearsFlag` | src/android/BrowserTab.java:141 | openUrl leaves the activity-result flag false on every path |
| `TabSession.OpenUrlRejectsArgs` | src/android/BrowserTab.java:142-160 | with no arguments one "URL argument missing" error; with an unreadable url or a missing options object one "URL argument is not a string" error; the callback and scheme stay as they were |
| `TabSession.OpenUrlLaunches` | src/android/BrowserTab.java:162-174 | with parsed arguments the tab is launched with the resolver's browser and the url, the callback is stored, and the last result is the kept-alive "opened"; when a browser is found the events are exactly the launch and "opened", with no error |
| `TabSession.OpenUrlWithoutBrowserStillOpens` | src/android/BrowserTab.java:163-174 | with no capable browser openUrl emits the error, then still launches with no package and sends "opened", and stores the callback |
| `TabSession.OpenUrlKeepsStaleScheme` | src/android/BrowserTab.java:151-154 | lastScheme is replaced only by a present, non-empty scheme option; otherwise the earlier scheme survives |
| `Protocol.OpenUrlKeepsInv` | src/android/BrowserTab.java:140-175 | openUrl keeps the invariant: the stored callback is the one the log awaits, every terminal result answers the pending open, the cache is consistent |
| `Protocol.NewIntentKeepsInv` | src/android/BrowserTab.java:113-127 | onNewIntent keeps the invariant |
| `Protocol.ActivityResultKeepsInv` | src/android/BrowserTab.java:179-184 | onActivityResult keeps the invariant |
| `Protocol.ResumeKeepsInv` | src/android/BrowserTab.java:131-138 | onResume keeps the invariant |
| `Protocol.RunKeepsInv` | src/android/BrowserTab.java:112-184 | any sequence of opens and lifecycle signals keeps the invariant |
| `Protocol.TerminalsSeparatedByOpen` | src/android/BrowserTab.java:118-120 | in a well-formed log, two terminal results always have an "opened" between them |
| `Protocol.AtMostOneTerminalPerOpen` | src/android/BrowserTab.java:118-137 | the same fact as `Protocol.TerminalsSeparatedByOpen`, for every pair of terminal results at once |
| `Protocol.TerminalAnswersLatestOpen` | src/android/BrowserTab.java:133-135 | each terminal result goes to the callback of the latest "opened" before it, with no other open or terminal result in between |
| `Protocol.AnyOrderAtMostOneTerminalPerOpen` | src/android/BrowserTab.java:112-184 | from a fresh plugin, whatever order the signals arrive in, no two terminal results are sent without an open between them |
| `Scenarios.OpenThenReturn` | src/android/BrowserTab.java:115-126 | open with scheme "myapp://" then "myapp://callback?x=1": launch, "opened", one "returned" with that url, a close request, nothing pending, the following resume silent |
| `Scenarios.OpenThenClose` | src/android/BrowserTab.java:133-137 | open, activity result with the tab's code, resume: launch, "opened", one "closed" |
| `Scenarios.ActivityResultThenReturn` | src/android/BrowserTab.java:121-124 | open, activity result, matching url, resume: one "returned", no close request, the resume silent |
| `Scenarios.OtherActivityResultIgnored` | src/android/BrowserTab.java:181-183 | an activity result with another request code leaves the open pending and the resume silent |
| `Scenarios.ReturnAfterCloseHasNoCallback` | src/android/BrowserTab.java:115-120 | after "closed" the stale scheme still matches, so a later url is sent as "returned" with no callback |
| `Scenarios.OpenWithoutBrowser` | src/android/BrowserTab.java:163-174 | with no candidates: error, launch with no package, "opened", the callback stored |
| `BrowserTabPlugin.BrowserTab.constructor` | src/android/BrowserTab.java:38-39 | a new plugin has nothing cached, no scheme, no callback, the flag false and an empty log |
| `BrowserTabPlugin.BrowserTab.FindCustomTabBrowser` | src/android/BrowserTab.java:220-245 | the loop returns and caches exactly what `Find` gives for the old cache and the candidates |
| `BrowserTabPlugin.BrowserTab.SendOpenResult` | src/android/BrowserTab.java:105-109 | appends one "opened" for the callback |
| `BrowserTabPlugin.BrowserTab.OpenUrl` | src/android/BrowserTab.java:140-175 | fields and appended events are those of `TabSession.OpenUrl`; the invariant is kept |
| `BrowserTabPlugin.BrowserTab.OnNewIntent` | src/android/BrowserTab.java:112-127 | fields and appended events are those of `TabSession.NewIntent`; the invariant is kept |
| `BrowserTabPlugin.BrowserTab.OnResume` | src/android/BrowserTab.java:130-138 | fields and appended events are those of `TabSession.Resume`; the invariant is kept |
| `BrowserTabPlugin.BrowserTab.OnActivityResult` | src/android/BrowserTab.java:178-184 | fields are those of `TabSession.ActivityResult` for the plugin's request code; nothing is emitted; the invariant is kept |

## Left out

- `Protocol.AnyOrderAtMostOneTerminalPerOpen`: proves at most one terminal result per open, not that one arrives. A session that gets no further signal stays open, and a new open replaces the pending callback without answering it.
- `Protocol.IsTerminal`: a "returned" sent while no callback is pending is not counted as a terminal result. What `sendSuccessResult` does with a null callback is not shown.
- `openExternal` (src/android/BrowserTab.java:187-218): it starts an activity and looks up a MIME type. It has no state.
- `execute` (src/android/BrowserTab.java:41-48): action dispatch only.
- The older `openUrl` (src/android/BrowserTab.java:50-77): a superseded copy. Only its resolver is modelled, for the caching comparison.
- `hasCustomTabWarmupService` and the older `supportsCustomTabs`: the `resolveService` probe is a foreign call. Its answer is the input `Candidate.hasWarmupService`.
- `queryIntentActivities`, `Uri.parse`, `CustomTabsIntent` and `launchUrl`: foreign Android calls. The query is the `candidates` input and the launch is the `Launched` event. URLs are not parsed, so any string is accepted.
- JSON unmarshalling: an argument that cannot be read is an absent url or absent options. How `getString` coerces non-string values is not modelled.
- `sendSuccessResult`, `sendCloseResult`, `closeCustomTab`, `lastScheme`, `isInvokedActivitResultClose`, `mFindCalled` and `CUSTOM_TAB_REQUEST_CODE` are used but never declared in the file. They are modelled as events, fields and a constructor parameter.
- `Log.d` logging and the `super.*` lifecycle calls: no effect on state.
- Threading: the lifecycle callbacks run one at a time on the UI thread, so each entry point is one atomic method.
