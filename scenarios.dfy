/**
  Concrete runs of the BrowserTab plugin: the open/return and open/close
  sequences, in the orders the operating system may deliver them.
*/
module Scenarios {
  import opened Wrappers
  import opened Resolver
  import opened TabSession
  import opened Protocol

  const Chrome := Candidate("com.android.chrome", true, true, Some(["http", "https"]), None, true)
  const TabCode := 100
  const Url := "https://a/b"
  const Scheme := "myapp://"
  const Back := "myapp://callback?x=1"

  function OpenWithScheme(cb: CallbackId): Signal {
    Open(Args(Some(Url), Some(Options(Some(Scheme)))), cb, [Chrome])
  }

  /** Running a signal and then the rest. */
  lemma RunPrepend(s: PluginState, signal: Signal, rest: seq<Signal>, code: int)
    ensures Run(s, [signal] + rest, code) ==
      var first := Apply(s, signal, code);
      var after := Run(first.next, rest, code);
      Transition(after.next, first.emitted + after.emitted)
  {
    assert ([signal] + rest)[1..] == rest;
  }

  /** The three- and four-signal runs, one step at a time. */
  lemma RunThree(s: PluginState, a: Signal, b: Signal, c: Signal, code: int)
    ensures var ta := Apply(s, a, code);
      var tb := Apply(ta.next, b, code);
      var tc := Apply(tb.next, c, code);
      Run(s, [a, b, c], code) == Transition(tc.next, ta.emitted + tb.emitted + tc.emitted)
  {
    var ta := Apply(s, a, code);
    var tb := Apply(ta.next, b, code);
    assert [a, b, c] == [a] + ([b] + ([c] + []));
    RunPrepend(s, a, [b] + ([c] + []), code);
    RunPrepend(ta.next, b, [c] + [], code);
    RunPrepend(tb.next, c, [], code);
  }

  lemma RunFour(s: PluginState, a: Signal, b: Signal, c: Signal, d: Signal, code: int)
    ensures var ta := Apply(s, a, code);
      var tb := Apply(ta.next, b, code);
      var tc := Apply(tb.next, c, code);
      var td := Apply(tc.next, d, code);
      Run(s, [a, b, c, d], code) == Transition(td.next, ta.emitted + tb.emitted + tc.emitted + td.emitted)
  {
    var ta := Apply(s, a, code);
    var tb := Apply(ta.next, b, code);
    var tc := Apply(tb.next, c, code);
    assert [a, b, c, d] == [a] + ([b] + ([c] + ([d] + [])));
    RunPrepend(s, a, [b] + ([c] + ([d] + [])), code);
    RunPrepend(ta.next, b, [c] + ([d] + []), code);
    RunPrepend(tb.next, c, [d] + [], code);
    RunPrepend(tc.next, d, [], code);
  }

  /** The open every scenario starts with: Chrome is found, the tab is
      launched and the scheme is recorded. */
  lemma OpenWithSchemeStep(cb: CallbackId)
    ensures OpenUrl(Initial, OpenWithScheme(cb).args, cb, [Chrome]) ==
      Transition(
        PluginState(Cache(Some("com.android.chrome"), true), Some(Scheme), Some(cb), false),
        [Launched(Some("com.android.chrome"), Url), Opened(cb)])
  {
    assert FullBrowser(Chrome);
    assert IsFirstHost([Chrome], 0);
    FirstHostIsFirst([Chrome], 0);
  }

  /** Open, then the app is re-entered through the return scheme: one
      "returned" with the incoming url, the tab is asked to close, nothing is
      left pending, and a later resume sends nothing. */
  lemma OpenThenReturn(cb: CallbackId)
    ensures var t := Run(Initial, [OpenWithScheme(cb), IncomingIntent(Some(Back)), Resumed], TabCode);
      && t.emitted == [Launched(Some("com.android.chrome"), Url), Opened(cb), Returned(Some(cb), Back), CloseTabRequested]
      && t.next.callbackContext.None? && t.next.lastScheme.None?
  {
    OpenWithSchemeStep(cb);
    assert Scheme <= Back;
    RunThree(Initial, OpenWithScheme(cb), IncomingIntent(Some(Back)), Resumed, TabCode);
  }

  /** Open, then the user closes the tab: the activity result is followed by
      the resume, which sends the one "closed". */
  lemma OpenThenClose(cb: CallbackId)
    ensures var t := Run(Initial, [OpenWithScheme(cb), ActivityReturned(TabCode), Resumed], TabCode);
      && t.emitted == [Launched(Some("com.android.chrome"), Url), Opened(cb), Closed(cb)]
      && t.next.callbackContext.None? && !t.next.activityResultClose
  {
    OpenWithSchemeStep(cb);
    RunThree(Initial, OpenWithScheme(cb), ActivityReturned(TabCode), Resumed, TabCode);
  }

  /** Activity result, then the return url, then the resume: the one terminal
      result is "returned", no close is requested (the tab is gone) and the
      resume sends nothing. */
  lemma ActivityResultThenReturn(cb: CallbackId)
    ensures var t := Run(Initial, [OpenWithScheme(cb), ActivityReturned(TabCode), IncomingIntent(Some(Back)), Resumed], TabCode);
      t.emitted == [Launched(Some("com.android.chrome"), Url), Opened(cb), Returned(Some(cb), Back)]
  {
    OpenWithSchemeStep(cb);
    assert Scheme <= Back;
    RunFour(Initial, OpenWithScheme(cb), ActivityReturned(TabCode), IncomingIntent(Some(Back)), Resumed, TabCode);
  }

  /** An activity result with another request code is ignored: the resume
      sends nothing and the open stays pending. */
  lemma OtherActivityResultIgnored(cb: CallbackId)
    ensures var t := Run(Initial, [OpenWithScheme(cb), ActivityReturned(TabCode + 1), Resumed], TabCode);
      && t.emitted == [Launched(Some("com.android.chrome"), Url), Opened(cb)]
      && t.next.callbackContext == Some(cb)
  {
    OpenWithSchemeStep(cb);
    RunThree(Initial, OpenWithScheme(cb), ActivityReturned(TabCode + 1), Resumed, TabCode);
  }

  /** After a "closed", the scheme of that open is still set, so a later
      matching url is sent as "returned" to no callback at all. */
  lemma ReturnAfterCloseHasNoCallback(cb: CallbackId)
    ensures var t := Run(Initial, [OpenWithScheme(cb), ActivityReturned(TabCode), Resumed, IncomingIntent(Some(Back))], TabCode);
      t.emitted == [Launched(Some("com.android.chrome"), Url), Opened(cb), Closed(cb), Returned(None, Back), CloseTabRequested]
  {
    OpenWithSchemeStep(cb);
    assert Scheme <= Back;
    RunFour(Initial, OpenWithScheme(cb), ActivityReturned(TabCode), Resumed, IncomingIntent(Some(Back)), TabCode);
  }

  /** Without any capable browser the error is reported and the tab is still
      launched, with no package, and "opened" is sent. */
  lemma OpenWithoutBrowser(cb: CallbackId)
    ensures var t := Run(Initial, [Open(Args(Some(Url), Some(Options(None))), cb, [])], TabCode);
      && t.emitted == [Error(cb, NoBrowserTab), Launched(None, Url), Opened(cb)]
      && t.next.callbackContext == Some(cb)
  {
    RunPrepend(Initial, Open(Args(Some(Url), Some(Options(None))), cb, []), [], TabCode);
    assert [Open(Args(Some(Url), Some(Options(None))), cb, [])] + [] == [Open(Args(Some(Url), Some(Options(None))), cb, [])];
  }
}
