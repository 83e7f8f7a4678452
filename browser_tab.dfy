/**
  The BrowserTab plugin object: the fields it updates in place and its entry
  points, each proved to move the object as the TabSession function of the
  same name moves the plugin state, and to keep the Protocol invariant.

  The callback results, the tab launch and closeCustomTab() are appended to
  `log`; the package-manager query and the warmup-service probes are the
  `candidates` argument.
*/
module BrowserTabPlugin {
  import opened Wrappers
  import opened Resolver
  import opened TabSession
  import opened Protocol

  class BrowserTab {
    /** CUSTOM_TAB_REQUEST_CODE, whose value the plugin does not show. */
    const customTabRequestCode: int

    var mCustomTabsBrowser: Option<string>
    var mFindCalled: bool
    var lastScheme: Option<string>
    var callbackContext: Option<CallbackId>
    var isInvokedActivitResultClose: bool

    /** Every result, launch and close request, oldest first. */
    var log: seq<Event>

    function Cached(): Cache
      reads this
    {
      Cache(mCustomTabsBrowser, mFindCalled)
    }

    function State(): PluginState
      reads this
    {
      PluginState(Cached(), lastScheme, callbackContext, isInvokedActivitResultClose)
    }

    predicate Valid()
      reads this
    {
      Inv(State(), log)
    }

    constructor (customTabRequestCode: int)
      ensures Valid() && State() == Initial && log == []
      ensures this.customTabRequestCode == customTabRequestCode
    {
      this.customTabRequestCode := customTabRequestCode;
      mCustomTabsBrowser, mFindCalled := None, false;
      lastScheme, callbackContext, isInvokedActivitResultClose := None, None, false;
      log := [];
      InitialInv();
    }

    /** findCustomTabBrowser: the cached answer once it has run; otherwise a
        pass over the candidates that skips those failing the full-browser
        filter and stops at the first with the warmup service. */
    method FindCustomTabBrowser(candidates: seq<Candidate>) returns (browser: Option<string>)
      modifies this`mCustomTabsBrowser, this`mFindCalled
      ensures Lookup(Cached(), browser) == Find(old(Cached()), candidates)
    {
      if mFindCalled {
        return mCustomTabsBrowser;
      }
      for i := 0 to |candidates|
        invariant FirstHost(candidates) == FirstHost(candidates[i..])
        invariant mCustomTabsBrowser == old(mCustomTabsBrowser)
      {
        var full := IsFullBrowser(candidates[i]);
        if !full {
          continue;
        }
        if candidates[i].hasWarmupService {
          mCustomTabsBrowser := Some(candidates[i].packageName);
          break;
        }
      }
      mFindCalled := true;
      browser := mCustomTabsBrowser;
    }

    /** sendOpenResult: "opened", with the callback kept alive. */
    method SendOpenResult(cb: CallbackId)
      modifies this`log
      ensures log == old(log) + [Opened(cb)]
    {
      log := log + [Opened(cb)];
    }

    method OpenUrl(args: OpenArgs, cb: CallbackId, candidates: seq<Candidate>)
      requires Valid()
      modifies this
      ensures Valid()
      ensures State() == TabSession.OpenUrl(old(State()), args, cb, candidates).next
      ensures log == old(log) + TabSession.OpenUrl(old(State()), args, cb, candidates).emitted
    {
      ghost var s0, log0 := State(), log;
      OpenUrlKeepsInv(s0, log0, args, cb, candidates);
      isInvokedActivitResultClose := false;
      if args.NoArgs? {
        log := log + [Error(cb, UrlArgumentMissing)];
        return;
      }
      if args.url.None? || args.options.None? {
        log := log + [Error(cb, UrlArgumentNotString)];
        return;
      }
      var urlStr := args.url.value;
      var scheme := args.options.value.scheme;
      if scheme.Some? && |scheme.value| != 0 {
        lastScheme := scheme;
      }
      var customTabsBrowser := FindCustomTabBrowser(candidates);
      if customTabsBrowser.None? {
        log := log + [Error(cb, NoBrowserTab)];
      }
      log := log + [Launched(customTabsBrowser, urlStr)];
      callbackContext := Some(cb);
      SendOpenResult(cb);
      assert log == log0 + TabSession.OpenUrl(s0, args, cb, candidates).emitted;
    }

    method OnNewIntent(data: Option<string>)
      requires Valid()
      modifies this
      ensures Valid()
      ensures State() == NewIntent(old(State()), data).next
      ensures log == old(log) + NewIntent(old(State()), data).emitted
    {
      ghost var s0, log0 := State(), log;
      NewIntentKeepsInv(s0, log0, data);
      if lastScheme.Some? && data.Some? {
        var openUrl := data.value;
        if lastScheme.value <= openUrl {
          lastScheme := None;
          log := log + [Returned(callbackContext, openUrl)];
          callbackContext := None;
          if !isInvokedActivitResultClose {
            log := log + [CloseTabRequested];
          }
          isInvokedActivitResultClose := false;
          assert log == log0 + NewIntent(s0, data).emitted;
        }
      }
    }

    method OnResume()
      requires Valid()
      modifies this
      ensures Valid()
      ensures State() == Resume(old(State())).next
      ensures log == old(log) + Resume(old(State())).emitted
    {
      ResumeKeepsInv(State(), log);
      if callbackContext.Some? && isInvokedActivitResultClose {
        log := log + [Closed(callbackContext.value)];
        callbackContext := None;
        isInvokedActivitResultClose := false;
      }
    }

    method OnActivityResult(requestCode: int)
      requires Valid()
      modifies this
      ensures Valid()
      ensures State() == ActivityResult(old(State()), requestCode, customTabRequestCode).next
      ensures log == old(log)
    {
      ActivityResultKeepsInv(State(), log, requestCode, customTabRequestCode);
      if requestCode == customTabRequestCode {
        isInvokedActivitResultClose := true;
      }
    }
  }
}
