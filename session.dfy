/**
  The tab-session state machine of the BrowserTab Cordova plugin
  (src/android/BrowserTab.java, openUrl, onNewIntent, onActivityResult and
  onResume), as functions from the plugin's state to its next state and the
  results it emits.

  Callback results, the tab launch and the close-tab request are events
  appended to an output log. A callback handle is an opaque number; the
  JSON arguments of openUrl are an optional url and optional options.
*/
module TabSession {
  import opened Wrappers
  import opened Resolver

  /** An opaque Cordova callback handle. */
  type CallbackId = nat

  const UrlArgumentMissing: string := "URL argument missing"
  const UrlArgumentNotString: string := "URL argument is not a string"
  const NoBrowserTab: string := "no in app browser tab implementation available"

  datatype Event =
    | Opened(cb: CallbackId)                          // sendOpenResult: OK, callback kept alive
    | Returned(to: Option<CallbackId>, url: string)   // sendSuccessResult(callbackContext, url)
    | Closed(cb: CallbackId)                          // sendCloseResult(callbackContext)
    | Error(cb: CallbackId, message: string)          // callbackContext.error(message)
    | Launched(browser: Option<string>, url: string)  // launchUrl after setPackage(browser)
    | CloseTabRequested                               // closeCustomTab()

  /** The options object (argument 1); `scheme` is None when it has no
      "scheme" key. */
  datatype Options = Options(scheme: Option<string>)

  /** The openUrl argument array. `url` is None when argument 0 cannot be read
      as a string; `options` is None when argument 1 is missing or not an
      object. */
  datatype OpenArgs = NoArgs | Args(url: Option<string>, options: Option<Options>)

  /** The plugin's fields: the resolver cache, lastScheme, callbackContext and
      isInvokedActivitResultClose. */
  datatype PluginState = PluginState(
    resolver: Cache,
    lastScheme: Option<string>,
    callbackContext: Option<CallbackId>,
    activityResultClose: bool)

  const Initial := PluginState(EmptyCache, None, None, false)

  /** The state an entry point leaves and the events it emits, in order. */
  datatype Transition = Transition(next: PluginState, emitted: seq<Event>)

  /** openUrl. The activity-result flag is cleared first. With no arguments, or
      arguments that do not parse, it reports an error and stops. Otherwise a
      non-empty scheme option replaces lastScheme, the resolver runs, a missing
      browser is reported as an error without stopping, the tab is launched,
      the callback is stored and "opened" is sent on it. */
  function OpenUrl(s: PluginState, args: OpenArgs, cb: CallbackId, candidates: seq<Candidate>): Transition {
    var reset := s.(activityResultClose := false);
    match args
    case NoArgs => Transition(reset, [Error(cb, UrlArgumentMissing)])
    case Args(url, options) =>
      if url.None? || options.None? then Transition(reset, [Error(cb, UrlArgumentNotString)])
      else
        var scheme := options.value.scheme;
        var parsed := if scheme.Some? && |scheme.value| != 0 then reset.(lastScheme := scheme) else reset;
        var lookup := Find(parsed.resolver, candidates);
        var errors := if lookup.browser.None? then [Error(cb, NoBrowserTab)] else [];
        Transition(
          parsed.(resolver := lookup.cache, callbackContext := Some(cb)),
          errors + [Launched(lookup.browser, url.value), Opened(cb)])
  }

  /** The guard of onNewIntent: a return scheme is set, the intent carries
      data, and that data starts with the scheme. */
  predicate ReturnsToApp(s: PluginState, data: Option<string>) {
    s.lastScheme.Some? && data.Some? && s.lastScheme.value <= data.value
  }

  /** onNewIntent. When the incoming url starts with lastScheme it is sent as
      the "returned" result on the current callback (null or not), the scheme
      and the callback are cleared, the tab is asked to close unless the
      activity already reported its own close, and the flag is cleared. */
  function NewIntent(s: PluginState, data: Option<string>): Transition {
    if ReturnsToApp(s, data) then
      var close := if s.activityResultClose then [] else [CloseTabRequested];
      Transition(
        s.(lastScheme := None, callbackContext := None, activityResultClose := false),
        [Returned(s.callbackContext, data.value)] + close)
    else Transition(s, [])
  }

  /** onActivityResult: only the custom-tab request code sets the flag. */
  function ActivityResult(s: PluginState, requestCode: int, tabRequestCode: int): Transition {
    if requestCode == tabRequestCode then Transition(s.(activityResultClose := true), [])
    else Transition(s, [])
  }

  /** onResume: with a pending callback and the flag set, "closed" is sent and
      both are cleared. */
  function Resume(s: PluginState): Transition {
    if s.callbackContext.Some? && s.activityResultClose then
      Transition(s.(callbackContext := None, activityResultClose := false), [Closed(s.callbackContext.value)])
    else Transition(s, [])
  }

  // ---------------------------------------------------------------------
  // What each entry point promises.

  /** onNewIntent on a matching url: exactly one "returned" result, carrying
      that url, to the callback that was current; scheme and callback cleared
      and the flag false afterwards; nothing else changes. */
  lemma NewIntentReturnsOnce(s: PluginState, url: string)
    requires ReturnsToApp(s, Some(url))
    ensures var t := NewIntent(s, Some(url));
      && 1 <= |t.emitted| <= 2
      && t.emitted[0] == Returned(s.callbackContext, url)
      && (forall i | 1 <= i < |t.emitted| :: t.emitted[i] == CloseTabRequested)
      && t.next.lastScheme.None? && t.next.callbackContext.None? && !t.next.activityResultClose
      && t.next.resolver == s.resolver
  {
  }

  /** onNewIntent changes nothing and emits nothing exactly when its guard
      fails. */
  lemma NewIntentIgnoresOthers(s: PluginState, data: Option<string>)
    ensures NewIntent(s, data) == Transition(s, []) <==> !ReturnsToApp(s, data)
  {
  }

  /** The tab is asked to close only by a matching onNewIntent, and then
      exactly when the activity-result flag was false on entry. */
  lemma CloseRequestedOnlyWithoutActivityResult(s: PluginState, data: Option<string>)
    ensures CloseTabRequested in NewIntent(s, data).emitted <==> ReturnsToApp(s, data) && !s.activityResultClose
  {
  }

  /** onActivityResult never emits, sets the flag exactly for the custom-tab
      request code, and changes nothing else. */
  lemma ActivityResultOnlySetsFlag(s: PluginState, requestCode: int, tabRequestCode: int)
    ensures var t := ActivityResult(s, requestCode, tabRequestCode);
      && t.emitted == []
      && t.next.(activityResultClose := s.activityResultClose) == s
      && (t.next.activityResultClose <==> requestCode == tabRequestCode || s.activityResultClose)
  {
  }

  /** onResume sends "closed" exactly when a callback is pending and the flag
      is set, and to that callback; afterwards neither remains, and nothing
      else (the scheme, the resolver cache) changes. */
  lemma ResumeClosesOnce(s: PluginState)
    ensures var t := Resume(s);
      && (t.emitted != [] <==> s.callbackContext.Some? && s.activityResultClose)
      && (t.emitted != [] ==> t.emitted == [Closed(s.callbackContext.value)])
      && (t.emitted != [] ==> t.next == s.(callbackContext := None, activityResultClose := false))
      && (t.emitted == [] ==> t.next == s)
  {
  }

  /** A second onResume, or one after a "returned" result, emits nothing. */
  lemma NoSecondClose(s: PluginState, data: Option<string>)
    ensures Resume(Resume(s).next).emitted == []
    ensures ReturnsToApp(s, data) ==> Resume(NewIntent(s, data).next).emitted == []
  {
  }

  /** openUrl clears the activity-result flag on every path. */
  lemma OpenUrlClearsFlag(s: PluginState, args: OpenArgs, cb: CallbackId, candidates: seq<Candidate>)
    ensures !OpenUrl(s, args, cb, candidates).next.activityResultClose
  {
  }

  /** openUrl whose arguments do not parse: one error, and only the flag
      changes; the pending callback and the scheme stay as they were. */
  lemma OpenUrlRejectsArgs(s: PluginState, args: OpenArgs, cb: CallbackId, candidates: seq<Candidate>)
    requires args.NoArgs? || args.url.None? || args.options.None?
    ensures var t := OpenUrl(s, args, cb, candidates);
      && t.emitted == [Error(cb, if args.NoArgs? then UrlArgumentMissing else UrlArgumentNotString)]
      && t.next == s.(activityResultClose := false)
  {
  }

  /** openUrl that reaches the launch: the tab is launched with the url, the
      callback becomes the pending one and its last result is the kept-alive
      "opened"; the browser launched with is the resolver's answer, and when
      the resolver finds one no error precedes the launch. */
  lemma OpenUrlLaunches(s: PluginState, url: string, options: Options, cb: CallbackId, candidates: seq<Candidate>)
    ensures var t := OpenUrl(s, Args(Some(url), Some(options)), cb, candidates);
      && |t.emitted| >= 2
      && t.emitted[|t.emitted| - 1] == Opened(cb)
      && t.emitted[|t.emitted| - 2] == Launched(Find(s.resolver, candidates).browser, url)
      && t.next.callbackContext == Some(cb)
      && t.next.resolver == Find(s.resolver, candidates).cache
      && (Find(s.resolver, candidates).browser.Some? ==>
            t.emitted == [Launched(Find(s.resolver, candidates).browser, url), Opened(cb)])
  {
  }

  /** With no capable browser openUrl reports the error but does not stop:
      it still launches (with no package), stores the callback and sends
      "opened". */
  lemma OpenUrlWithoutBrowserStillOpens(s: PluginState, url: string, options: Options, cb: CallbackId, candidates: seq<Candidate>)
    requires Find(s.resolver, candidates).browser.None?
    ensures var t := OpenUrl(s, Args(Some(url), Some(options)), cb, candidates);
      && t.emitted == [Error(cb, NoBrowserTab), Launched(None, url), Opened(cb)]
      && t.next.callbackContext == Some(cb)
  {
  }

  /** lastScheme is replaced only by a non-empty scheme option; otherwise the
      scheme of an earlier open survives. */
  lemma OpenUrlKeepsStaleScheme(s: PluginState, args: OpenArgs, cb: CallbackId, candidates: seq<Candidate>)
    ensures var t := OpenUrl(s, args, cb, candidates);
      if args.Args? && args.url.Some? && args.options.Some?
         && args.options.value.scheme.Some? && |args.options.value.scheme.value| != 0
      then t.next.lastScheme == args.options.value.scheme
      else t.next.lastScheme == s.lastScheme
  {
  }
}
