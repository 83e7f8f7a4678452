/**
  The open/close protocol of the BrowserTab plugin over any interleaving of
  openUrl calls and the three lifecycle signals: every terminal result
  ("returned" to a callback, or "closed") answers the latest open that has
  not been answered yet, so no callback gets two terminal results from one
  open.
*/
module Protocol {
  import opened Wrappers
  import opened Resolver
  import opened TabSession

  /** A result that ends an open: "returned" sent to a callback, or "closed". */
  predicate IsTerminal(e: Event) {
    (e.Returned? && e.to.Some?) || e.Closed?
  }

  function Target(e: Event): CallbackId
    requires IsTerminal(e)
  {
    if e.Returned? then e.to.value else e.cb
  }

  /** The callback the log leaves waiting for a terminal result: the one of
      the last "opened", unless a terminal result came after it. */
  function Awaiting(log: seq<Event>): Option<CallbackId>
    decreases |log|
  {
    if |log| == 0 then None
    else
      var e := log[|log| - 1];
      if e.Opened? then Some(e.cb)
      else if IsTerminal(e) then None
      else Awaiting(log[..|log| - 1])
  }

  /** Every terminal result in the log goes to the callback then awaiting one. */
  predicate AnswersPending(log: seq<Event>)
    decreases |log|
  {
    || |log| == 0
    || (var e := log[|log| - 1];
        && AnswersPending(log[..|log| - 1])
        && (IsTerminal(e) ==> Awaiting(log[..|log| - 1]) == Some(Target(e))))
  }

  /** The plugin invariant: the stored callback is exactly the one the log
      leaves awaiting, the log is well formed, and the resolver cache is
      consistent. */
  predicate Inv(s: PluginState, log: seq<Event>) {
    && s.callbackContext == Awaiting(log)
    && AnswersPending(log)
    && CacheValid(s.resolver)
  }

  lemma InitialInv()
    ensures Inv(Initial, [])
  {
  }

  lemma AppendOne(log: seq<Event>, e: Event)
    ensures Awaiting(log + [e]) ==
      if e.Opened? then Some(e.cb) else if IsTerminal(e) then None else Awaiting(log)
    ensures AnswersPending(log + [e]) <==>
      AnswersPending(log) && (IsTerminal(e) ==> Awaiting(log) == Some(Target(e)))
  {
    assert (log + [e])[..|log|] == log;
  }

  // ---------------------------------------------------------------------
  // Each entry point keeps the invariant.

  /** Appending an optional error, a launch and an "opened": the log stays
      well formed and now awaits the opened callback. */
  lemma AppendLaunch(log: seq<Event>, errors: seq<Event>, launch: Event, cb: CallbackId)
    requires AnswersPending(log)
    requires errors == [] || (|errors| == 1 && errors[0].Error?)
    requires launch.Launched?
    ensures AnswersPending(log + errors + [launch] + [Opened(cb)])
    ensures Awaiting(log + errors + [launch] + [Opened(cb)]) == Some(cb)
  {
    if errors != [] {
      assert log + errors == log + [errors[0]];
      AppendOne(log, errors[0]);
    } else {
      assert log + errors == log;
    }
    var l1 := log + errors;
    AppendOne(l1, launch);
    AppendOne(l1 + [launch], Opened(cb));
  }

  lemma {:induction false} OpenUrlKeepsInv(s: PluginState, log: seq<Event>, args: OpenArgs, cb: CallbackId, candidates: seq<Candidate>)
    requires Inv(s, log)
    ensures var t := OpenUrl(s, args, cb, candidates); Inv(t.next, log + t.emitted)
  {
    var t := OpenUrl(s, args, cb, candidates);
    FindMarksRun(s.resolver, candidates);
    if args.NoArgs? || args.url.None? || args.options.None? {
      AppendOne(log, t.emitted[0]);
    } else {
      var lookup := Find(s.resolver, candidates);
      var errors := if lookup.browser.None? then [Error(cb, NoBrowserTab)] else [];
      var launch := Launched(lookup.browser, args.url.value);
      assert t.emitted == errors + [launch] + [Opened(cb)];
      assert t.next.callbackContext == Some(cb) && t.next.resolver == lookup.cache;
      AppendLaunch(log, errors, launch, cb);
      assert log + t.emitted == log + errors + [launch] + [Opened(cb)];
    }
  }

  lemma {:induction false} NewIntentKeepsInv(s: PluginState, log: seq<Event>, data: Option<string>)
    requires Inv(s, log)
    ensures var t := NewIntent(s, data); Inv(t.next, log + t.emitted)
  {
    var t := NewIntent(s, data);
    if ReturnsToApp(s, data) {
      var returned := t.emitted[0];
      AppendOne(log, returned);
      if |t.emitted| == 2 {
        assert log + t.emitted == log + [returned] + [CloseTabRequested];
        AppendOne(log + [returned], CloseTabRequested);
      }
    } else {
      assert log + t.emitted == log;
    }
  }

  lemma {:induction false} ActivityResultKeepsInv(s: PluginState, log: seq<Event>, requestCode: int, tabRequestCode: int)
    requires Inv(s, log)
    ensures var t := ActivityResult(s, requestCode, tabRequestCode); Inv(t.next, log + t.emitted)
  {
    assert log + [] == log;
  }

  lemma {:induction false} ResumeKeepsInv(s: PluginState, log: seq<Event>)
    requires Inv(s, log)
    ensures var t := Resume(s); Inv(t.next, log + t.emitted)
  {
    var t := Resume(s);
    if t.emitted != [] {
      AppendOne(log, t.emitted[0]);
    } else {
      assert log + t.emitted == log;
    }
  }

  // ---------------------------------------------------------------------
  // Any interleaving of signals.

  /** One call into the plugin from the outside. */
  datatype Signal =
    | Open(args: OpenArgs, cb: CallbackId, candidates: seq<Candidate>)
    | IncomingIntent(data: Option<string>)
    | ActivityReturned(requestCode: int)
    | Resumed

  function Apply(s: PluginState, signal: Signal, tabRequestCode: int): Transition {
    match signal
    case Open(args, cb, candidates) => OpenUrl(s, args, cb, candidates)
    case IncomingIntent(data) => NewIntent(s, data)
    case ActivityReturned(requestCode) => ActivityResult(s, requestCode, tabRequestCode)
    case Resumed => Resume(s)
  }

  /** The signals in order: the final state and every event emitted. */
  function Run(s: PluginState, signals: seq<Signal>, tabRequestCode: int): Transition
    decreases |signals|
  {
    if |signals| == 0 then Transition(s, [])
    else
      var first := Apply(s, signals[0], tabRequestCode);
      var rest := Run(first.next, signals[1..], tabRequestCode);
      Transition(rest.next, first.emitted + rest.emitted)
  }

  lemma ApplyKeepsInv(s: PluginState, log: seq<Event>, signal: Signal, tabRequestCode: int)
    requires Inv(s, log)
    ensures var t := Apply(s, signal, tabRequestCode); Inv(t.next, log + t.emitted)
  {
    match signal
    case Open(args, cb, candidates) => OpenUrlKeepsInv(s, log, args, cb, candidates);
    case IncomingIntent(data) => NewIntentKeepsInv(s, log, data);
    case ActivityReturned(requestCode) => ActivityResultKeepsInv(s, log, requestCode, tabRequestCode);
    case Resumed => ResumeKeepsInv(s, log);
  }

  lemma {:induction false} RunKeepsInv(s: PluginState, log: seq<Event>, signals: seq<Signal>, tabRequestCode: int)
    requires Inv(s, log)
    ensures var t := Run(s, signals, tabRequestCode); Inv(t.next, log + t.emitted)
    decreases |signals|
  {
    if |signals| != 0 {
      var first := Apply(s, signals[0], tabRequestCode);
      ApplyKeepsInv(s, log, signals[0], tabRequestCode);
      RunKeepsInv(first.next, log + first.emitted, signals[1..], tabRequestCode);
      var rest := Run(first.next, signals[1..], tabRequestCode);
      assert log + first.emitted + rest.emitted == log + (first.emitted + rest.emitted);
    } else {
      assert log + [] == log;
    }
  }

  // ---------------------------------------------------------------------
  // What a well-formed log means.

  lemma {:induction false} AnswersPendingPrefix(log: seq<Event>, n: nat)
    requires AnswersPending(log) && n <= |log|
    ensures AnswersPending(log[..n])
    decreases |log| - n
  {
    if n < |log| {
      AnswersPendingPrefix(log[..|log| - 1], n);
      assert log[..|log| - 1][..n] == log[..n];
    } else {
      assert log[..n] == log;
    }
  }

  /** A callback awaits a terminal result only if an "opened" came after the
      last terminal result. */
  lemma {:induction false} OpenedSinceTerminal(log: seq<Event>, i: nat, j: nat)
    requires i < j <= |log| && IsTerminal(log[i])
    requires Awaiting(log[..j]).Some?
    ensures exists k | i < k < j :: log[k].Opened?
    decreases j
  {
    var prefix := log[..j];
    assert prefix[..j - 1] == log[..j - 1] && prefix[j - 1] == log[j - 1];
    if log[j - 1].Opened? {
      assert i < j - 1;
    } else {
      OpenedSinceTerminal(log, i, j - 1);
    }
  }

  /** No two terminal results without an "opened" between them. */
  lemma {:induction false} TerminalsSeparatedByOpen(log: seq<Event>, i: nat, j: nat)
    requires AnswersPending(log)
    requires i < j < |log| && IsTerminal(log[i]) && IsTerminal(log[j])
    ensures exists k | i < k < j :: log[k].Opened?
  {
    AnswersPendingPrefix(log, j + 1);
    var prefix := log[..j + 1];
    assert prefix[..j] == log[..j] && prefix[j] == log[j];
    OpenedSinceTerminal(log, i, j);
  }

  /** The callback a log leaves awaiting is the one of its last "opened", with
      neither an "opened" nor a terminal result after it. */
  lemma {:induction false} AwaitingIsLatestOpen(log: seq<Event>, n: nat, cb: CallbackId)
    requires n <= |log| && Awaiting(log[..n]) == Some(cb)
    ensures exists k | 0 <= k < n :: log[k] == Opened(cb) && UnansweredSince(log, k, n)
    decreases n
  {
    var prefix := log[..n];
    assert prefix[..n - 1] == log[..n - 1] && prefix[n - 1] == log[n - 1];
    if !log[n - 1].Opened? {
      AwaitingIsLatestOpen(log, n - 1, cb);
      var k :| 0 <= k < n - 1 && log[k] == Opened(cb) && UnansweredSince(log, k, n - 1);
      assert UnansweredSince(log, k, n);
    }
  }

  /** Between positions k and n the log holds neither an "opened" nor a
      terminal result. */
  predicate UnansweredSince(log: seq<Event>, k: int, n: int)
    requires 0 <= k < n <= |log|
  {
    forall m | k < m < n :: !log[m].Opened? && !IsTerminal(log[m])
  }

  /** Each terminal result goes to the callback of the latest "opened" before
      it, and answers that open first. */
  lemma TerminalAnswersLatestOpen(log: seq<Event>, j: nat)
    requires AnswersPending(log)
    requires j < |log| && IsTerminal(log[j])
    ensures exists k | 0 <= k < j :: log[k] == Opened(Target(log[j])) && UnansweredSince(log, k, j)
  {
    AnswersPendingPrefix(log, j + 1);
    var prefix := log[..j + 1];
    assert prefix[..j] == log[..j] && prefix[j] == log[j];
    AwaitingIsLatestOpen(log, j, Target(log[j]));
  }

  /** In a well-formed log no two terminal results come without an "opened"
      between them. */
  lemma AtMostOneTerminalPerOpen(log: seq<Event>)
    requires AnswersPending(log)
    ensures forall i, j | 0 <= i < j < |log| && IsTerminal(log[i]) && IsTerminal(log[j]) ::
      exists k | i < k < j :: log[k].Opened?
  {
    forall i, j | 0 <= i < j < |log| && IsTerminal(log[i]) && IsTerminal(log[j])
      ensures exists k | i < k < j :: log[k].Opened?
    {
      TerminalsSeparatedByOpen(log, i, j);
    }
  }

  /** Over any sequence of opens and lifecycle signals from a fresh plugin,
      every terminal result goes to the callback then pending, and no two
      terminal results are sent without an open between them. */
  lemma AnyOrderAtMostOneTerminalPerOpen(signals: seq<Signal>, tabRequestCode: int)
    ensures var log := Run(Initial, signals, tabRequestCode).emitted;
      && AnswersPending(log)
      && forall i, j | 0 <= i < j < |log| && IsTerminal(log[i]) && IsTerminal(log[j]) ::
           exists k | i < k < j :: log[k].Opened?
  {
    var t := Run(Initial, signals, tabRequestCode);
    InitialInv();
    RunKeepsInv(Initial, [], signals, tabRequestCode);
    assert [] + t.emitted == t.emitted;
    AtMostOneTerminalPerOpen(t.emitted);
  }
}
