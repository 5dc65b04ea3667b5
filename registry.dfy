/**
 * `Listeners` (src/robot/output/listeners.py): the registry that takes the
 * listeners into use and forwards every event of the run to each of them.
 *
 * Every public method is guarded the way `no_recursion` wraps it: while a
 * notification is in progress (`recursion`), any other notification does
 * nothing; the flag is cleared only when the body returns normally, so an
 * exception raised while building a payload leaves it set.
 */
module ListenerRegistry {
  import opened Wrappers
  import opened PyValues
  import opened Payloads
  import opened Logging
  import opened ListenerProxies

  /** How a notification ended: normally, or with an exception that
      propagates to the caller. */
  datatype Outcome = Returned | Raised(error: Error)

  /** The arguments a built call hands to listeners (none if building failed). */
  function ArgsOf(call: Call): seq<Data> {
    if call.Success? then call.value else []
  }

  class Listeners {
    const listeners: seq<ListenerProxy>
    const logger: Logger
    const transcript: Transcript
    var runningTest: bool
    var setupOrTeardownType: Option<string>
    var recursion: bool

    /** `__init__`: the adapters `_import_listeners` yields; no test running,
        no setup or teardown pending. */
    constructor (specs: seq<ListenerSpec>, logger: Logger, transcript: Transcript)
      modifies logger
      ensures listeners == ImportedProxies(specs)
      ensures logger.entries == old(logger.entries) + ImportErrors(specs)
      ensures this.logger == logger && this.transcript == transcript
      ensures !runningTest && setupOrTeardownType == None && !recursion
    {
      var proxies := ImportListeners(specs, logger);
      listeners := proxies;
      this.logger := logger;
      this.transcript := transcript;
      runningTest := false;
      setupOrTeardownType := None;
      recursion := false;
    }

    /** `_import_listeners`: one adapter per spec that can be taken into use,
        in order; one error logged for each spec that cannot. */
    static method ImportListeners(specs: seq<ListenerSpec>, logger: Logger) returns (proxies: seq<ListenerProxy>)
      modifies logger
      ensures proxies == ImportedProxies(specs)
      ensures logger.entries == old(logger.entries) + ImportErrors(specs)
    {
      proxies := [];
      for i := 0 to |specs|
        invariant proxies == ImportedProxies(specs[..i])
        invariant logger.entries == old(logger.entries) + ImportErrors(specs[..i])
      {
        ImportSnoc(specs, i);
        var r := NewProxy(specs[i]);
        if r.Success? {
          proxies := proxies + [r.value];
        } else {
          logger.LogError(ImportFailedText, ImportErrorArgs(specs[i], r.error));
        }
      }
      assert specs[..|specs|] == specs;
    }

    /** `__nonzero__`. */
    predicate NonZero()
      reads this
    {
      listeners != []
    }

    /** One guarded notification of method `m`, whose arguments are `call`:
        skipped entirely while another notification runs; raising, with the
        guard left set and nothing delivered, when the arguments cannot be
        built; otherwise every adapter called in order and the guard cleared. */
    twostate predicate Notified(m: MethodName, call: Call, outcome: Outcome)
      reads this, logger, transcript
    {
      if old(recursion) then
        && recursion && outcome == Returned
        && logger.entries == old(logger.entries) && transcript.invocations == old(transcript.invocations)
      else if listeners != [] && call.Failure? then
        && recursion && outcome == Raised(call.error)
        && logger.entries == old(logger.entries) && transcript.invocations == old(transcript.invocations)
      else
        && !recursion && outcome == Returned
        && transcript.invocations == old(transcript.invocations) + Broadcast(listeners, m, ArgsOf(call))
        && logger.entries == old(logger.entries) + CallLogs(listeners, m)
    }

    /** `ListenerProxy.call_method`: calls the listener; whatever it raises is
        logged as one error and one info entry and goes no further. */
    method CallMethod(p: ListenerProxy, m: MethodName, args: seq<Data>)
      requires recursion
      modifies this, logger, transcript
      ensures unchanged(this)
      ensures transcript.invocations == old(transcript.invocations) + [Invocation(p.listener.id, m, args)]
      ensures logger.entries == old(logger.entries) + CallLog(p, m)
      decreases 1
    {
      transcript.Record(Invocation(p.listener.id, m, args));
      match p.listener.React(m)
      case Accept =>
      case Raise(message, details) =>
        logger.LogError(CallFailed, [MethodText(m), p.name, message]);
        logger.LogInfo(CallDetails, [details]);
      case LogBack(msg) =>
        var ignored := LogMessage(msg);
    }

    /** The loop of every event method: `call_method` on each adapter in list order. */
    method Deliver(m: MethodName, args: seq<Data>)
      requires recursion
      modifies this, logger, transcript
      ensures unchanged(this)
      ensures transcript.invocations == old(transcript.invocations) + Broadcast(listeners, m, args)
      ensures logger.entries == old(logger.entries) + CallLogs(listeners, m)
      decreases 3
    {
      ghost var sent, logged := transcript.invocations, logger.entries;
      for i := 0 to |listeners|
        invariant recursion && unchanged(this)
        invariant transcript.invocations == sent + Broadcast(listeners[..i], m, args)
        invariant logger.entries == logged + CallLogs(listeners[..i], m)
      {
        CallNext(i, m, args, sent, logged);
      }
      assert listeners[..|listeners|] == listeners;
    }

    /** One turn of the loop of `Deliver`: `call_method` on the `i`th adapter. */
    method CallNext(i: nat, m: MethodName, args: seq<Data>, ghost sent: seq<Invocation>, ghost logged: seq<LogEntry>)
      requires recursion && i < |listeners|
      requires transcript.invocations == sent + Broadcast(listeners[..i], m, args)
      requires logger.entries == logged + CallLogs(listeners[..i], m)
      modifies this, logger, transcript
      ensures unchanged(this)
      ensures transcript.invocations == sent + Broadcast(listeners[..i + 1], m, args)
      ensures logger.entries == logged + CallLogs(listeners[..i + 1], m)
      decreases 2
    {
      BroadcastSnoc(listeners, i, m, args);
      CallMethod(listeners[i], m, args);
    }

    /** `start_suite`. */
    method StartSuite(suite: Item) returns (outcome: Outcome)
      modifies this, logger, transcript
      ensures Notified(MethodName.StartSuite, old(StartSuiteCall(suite)), outcome)
      ensures runningTest == old(runningTest) && setupOrTeardownType == old(setupOrTeardownType)
    {
      if recursion {
        return Returned;
      }
      var call := StartSuiteCall(suite);
      recursion := true;
      if listeners != [] {
        if call.Failure? {
          return Raised(call.error);
        }
        Deliver(MethodName.StartSuite, call.value);
      }
      recursion := false;
      return Returned;
    }

    /** `end_suite`. */
    method EndSuite(suite: Item) returns (outcome: Outcome)
      modifies this, logger, transcript
      ensures Notified(MethodName.EndSuite, old(EndSuiteCall(suite)), outcome)
      ensures runningTest == old(runningTest) && setupOrTeardownType == old(setupOrTeardownType)
    {
      if recursion {
        return Returned;
      }
      var call := EndSuiteCall(suite);
      recursion := true;
      if listeners != [] {
        if call.Failure? {
          return Raised(call.error);
        }
        Deliver(MethodName.EndSuite, call.value);
      }
      recursion := false;
      return Returned;
    }

    /** `start_test` marks a test as running before any listener is called. */
    method StartTest(test: Item) returns (outcome: Outcome)
      modifies this, logger, transcript
      ensures Notified(MethodName.StartTest, old(TestCall(test, true)), outcome)
      ensures runningTest == (old(recursion) ==> old(runningTest))
      ensures setupOrTeardownType == old(setupOrTeardownType)
    {
      if recursion {
        return Returned;
      }
      var call := TestCall(test, true);
      recursion := true;
      runningTest := true;
      if listeners != [] {
        if call.Failure? {
          return Raised(call.error);
        }
        Deliver(MethodName.StartTest, call.value);
      }
      recursion := false;
      return Returned;
    }

    /** `end_test` marks the test as finished before any listener is called. */
    method EndTest(test: Item) returns (outcome: Outcome)
      modifies this, logger, transcript
      ensures Notified(MethodName.EndTest, old(TestCall(test, false)), outcome)
      ensures runningTest == (old(recursion) && old(runningTest))
      ensures setupOrTeardownType == old(setupOrTeardownType)
    {
      if recursion {
        return Returned;
      }
      var call := TestCall(test, false);
      recursion := true;
      runningTest := false;
      if listeners != [] {
        if call.Failure? {
          return Raised(call.error);
        }
        Deliver(MethodName.EndTest, call.value);
      }
      recursion := false;
      return Returned;
    }

    /** `start_keyword` and `end_keyword`: the keyword type is derived, and
        the pending setup/teardown slot updated, once per listener; every
        listener sees the same type and the slot ends as one derivation
        leaves it. With no listeners the slot is untouched. */
    method NotifyKeyword(kw: Item, start: bool) returns (outcome: Outcome)
      modifies this, logger, transcript
      ensures var s := old(KeywordStep(kw, runningTest, setupOrTeardownType, start));
        && Notified(if start then MethodName.StartKeyword else MethodName.EndKeyword, s.call, outcome)
        && setupOrTeardownType == (if old(recursion) || listeners == [] then old(setupOrTeardownType) else s.pending)
      ensures runningTest == old(runningTest)
    {
      if recursion {
        return Returned;
      }
      var m := if start then MethodName.StartKeyword else MethodName.EndKeyword;
      var step := KeywordStep(kw, runningTest, setupOrTeardownType, start);
      recursion := true;
      if listeners != [] {
        setupOrTeardownType := step.pending;
        if step.call.Failure? {
          return Raised(step.call.error);
        }
        Deliver(m, step.call.value);
      }
      recursion := false;
      return Returned;
    }

    method StartKeyword(kw: Item) returns (outcome: Outcome)
      modifies this, logger, transcript
      ensures var s := old(KeywordStep(kw, runningTest, setupOrTeardownType, true));
        && Notified(MethodName.StartKeyword, s.call, outcome)
        && setupOrTeardownType == (if old(recursion) || listeners == [] then old(setupOrTeardownType) else s.pending)
      ensures runningTest == old(runningTest)
    {
      outcome := NotifyKeyword(kw, true);
    }

    method EndKeyword(kw: Item) returns (outcome: Outcome)
      modifies this, logger, transcript
      ensures var s := old(KeywordStep(kw, runningTest, setupOrTeardownType, false));
        && Notified(MethodName.EndKeyword, s.call, outcome)
        && setupOrTeardownType == (if old(recursion) || listeners == [] then old(setupOrTeardownType) else s.pending)
      ensures runningTest == old(runningTest)
    {
      outcome := NotifyKeyword(kw, false);
    }

    /** `imported`: `<kind>_import(name, attrs)` on every listener. */
    method Imported(importType: ImportType, name: string, attrs: Data) returns (outcome: Outcome)
      modifies this, logger, transcript
      ensures Notified(ImportMethod(importType), Success([Str(name), attrs]), outcome)
      ensures runningTest == old(runningTest) && setupOrTeardownType == old(setupOrTeardownType)
    {
      if recursion {
        return Returned;
      }
      recursion := true;
      Deliver(ImportMethod(importType), [Str(name), attrs]);
      recursion := false;
      return Returned;
    }

    /** `log_message`: the message dict, to every listener. A listener that
        logs from here reaches this method again, and is ignored by the guard. */
    method LogMessage(msg: Item) returns (outcome: Outcome)
      modifies this, logger, transcript
      ensures Notified(MethodName.LogMessage, old(MessageCall(msg)), outcome)
      ensures old(recursion) ==> unchanged(this)
      ensures runningTest == old(runningTest) && setupOrTeardownType == old(setupOrTeardownType)
      decreases if recursion then 0 else 4
    {
      if recursion {
        return Returned;
      }
      var call := MessageCall(msg);
      recursion := true;
      if listeners != [] {
        if call.Failure? {
          return Raised(call.error);
        }
        Deliver(MethodName.LogMessage, call.value);
      }
      recursion := false;
      return Returned;
    }

    /** `message`: the message dict, to every listener. */
    method Message(msg: Item) returns (outcome: Outcome)
      modifies this, logger, transcript
      ensures Notified(MethodName.Message, old(MessageCall(msg)), outcome)
      ensures runningTest == old(runningTest) && setupOrTeardownType == old(setupOrTeardownType)
    {
      if recursion {
        return Returned;
      }
      var call := MessageCall(msg);
      recursion := true;
      if listeners != [] {
        if call.Failure? {
          return Raised(call.error);
        }
        Deliver(MethodName.Message, call.value);
      }
      recursion := false;
      return Returned;
    }

    /** `output_file`: `<kind>_file(path)` on every listener. */
    method OutputFile(fileType: FileType, path: string) returns (outcome: Outcome)
      modifies this, logger, transcript
      ensures Notified(FileMethod(fileType), Success([Str(path)]), outcome)
      ensures runningTest == old(runningTest) && setupOrTeardownType == old(setupOrTeardownType)
    {
      if recursion {
        return Returned;
      }
      recursion := true;
      Deliver(FileMethod(fileType), [Str(path)]);
      recursion := false;
      return Returned;
    }

    /** `close`: `close()` on every listener. */
    method Close() returns (outcome: Outcome)
      modifies this, logger, transcript
      ensures Notified(MethodName.Close, Success([]), outcome)
      ensures runningTest == old(runningTest) && setupOrTeardownType == old(setupOrTeardownType)
    {
      if recursion {
        return Returned;
      }
      recursion := true;
      Deliver(MethodName.Close, []);
      recursion := false;
      return Returned;
    }
  }
}
