/**
 * Whole runs of the listener layer, driven through `Listeners` the way the
 * run drives it: what the recursion guard, the error handling of
 * `call_method` and the copying of mutable attribute values mean for the
 * listeners and for the log.
 */
module Scenarios {
  import opened Wrappers
  import opened PyValues
  import opened Payloads
  import opened Logging
  import opened ListenerProxies
  import opened ListenerRegistry

  /** A listener given as an object with version 2 is taken into use as it is. */
  lemma InstanceLoads(l: Listener, typeName: string)
    requires l.version == VersionValue(Int(2))
    ensures NewProxy(Instance(l, typeName)) == Success(ListenerProxy(typeName, l, 2))
  {
  }

  /** Registers each listener object, in order, into a fresh registry. */
  method Register(ls: seq<Listener>) returns (registry: Listeners)
    requires forall k :: 0 <= k < |ls| ==> ls[k].version == VersionValue(Int(2))
    ensures fresh(registry) && fresh(registry.logger) && fresh(registry.transcript)
    ensures |registry.listeners| == |ls| && (registry.NonZero() <==> ls != [])
    ensures forall k :: 0 <= k < |ls| ==> registry.listeners[k].listener == ls[k]
    ensures registry.logger.entries == [] && registry.transcript.invocations == []
    ensures !registry.runningTest && !registry.recursion && registry.setupOrTeardownType == None
  {
    var specs := seq(|ls|, k requires 0 <= k < |ls| => Instance(ls[k], "listener"));
    forall k | 0 <= k < |specs|
      ensures NewProxy(specs[k]).Success? && NewProxy(specs[k]).value.listener == ls[k]
    {
      InstanceLoads(ls[k], "listener");
    }
    ImportAllLoadable(specs);
    var logger := new Logger();
    var transcript := new Transcript();
    registry := new Listeners(specs, logger, transcript);
  }

  /**
   * A listener whose `close` logs a message: the run hands the message to
   * `log_message` while `close` is still being delivered, and the guard drops
   * it, so the listener is called exactly once.
   */
  method LogFromListener(l: Listener, msg: Item) returns (outcome: Outcome, sent: seq<Invocation>, logged: seq<LogEntry>)
    requires l.version == VersionValue(Int(2))
    requires l.React(MethodName.Close) == LogBack(msg)
    ensures outcome == Returned
    ensures sent == [Invocation(l.id, MethodName.Close, [])]
    ensures logged == []
  {
    var registry := Register([l]);
    var p := registry.listeners[0];
    assert registry.listeners == [p];
    assert Broadcast([p], MethodName.Close, []) == [Invocation(l.id, MethodName.Close, [])];
    assert CallLogs([p], MethodName.Close) == [];
    outcome := registry.Close();
    sent := registry.transcript.invocations;
    logged := registry.logger.entries;
  }

  /**
   * A suite without a name: building the `start_suite` payload raises, the
   * guard stays set, and from then on nothing reaches any listener, not even
   * `close`.
   */
  method StuckGuard(ls: seq<Listener>, suite: Item) returns (first: Outcome, second: Outcome, sent: seq<Invocation>)
    requires ls != []
    requires forall k :: 0 <= k < |ls| ==> ls[k].version == VersionValue(Int(2))
    requires "name" !in suite.attrs
    ensures first.Raised? && second == Returned && sent == []
  {
    var registry := Register(ls);
    first := registry.StartSuite(suite);
    second := registry.Close();
    sent := registry.transcript.invocations;
  }

  /** The `start_suite` arguments hold the suite's metadata as it is now. */
  lemma StartSuiteMetadata(suite: Item, metadata: LiveDict)
    requires "metadata" in suite.attrs && suite.attrs["metadata"] == DictLike(metadata)
    requires StartSuiteCall(suite).Success?
    ensures var args := StartSuiteCall(suite).value;
      |args| == 2 && args[1].Dict? && "metadata" in args[1].entries
      && args[1].entries["metadata"] == Dict(metadata.entries)
  {
    StartSuitePayload(suite);
  }

  /**
   * The `metadata` a listener receives at `start_suite` is a copy: changing
   * the suite's metadata afterwards does not change what was delivered.
   */
  method MetadataSnapshot(l: Listener, suite: Item, metadata: LiveDict, later: map<string, Data>)
    returns (delivered: Data)
    requires l.version == VersionValue(Int(2))
    requires "metadata" in suite.attrs && suite.attrs["metadata"] == DictLike(metadata)
    requires StartSuiteCall(suite).Success?
    modifies metadata
    ensures metadata.entries == later
    ensures delivered == Dict(old(metadata.entries))
  {
    var registry := Register([l]);
    var p := registry.listeners[0];
    assert registry.listeners == [p];
    StartSuiteMetadata(suite, metadata);
    var args := StartSuiteCall(suite).value;
    assert Broadcast([p], MethodName.StartSuite, args) == [Invocation(l.id, MethodName.StartSuite, args)];
    var outcome := registry.StartSuite(suite);
    metadata.entries := later;
    delivered := registry.transcript.invocations[0].args[1].entries["metadata"];
  }

  /** Delivering to two adapters of which only the first raises. */
  lemma FirstOfTwoFails(ps: seq<ListenerProxy>, m: MethodName, args: seq<Data>)
    requires |ps| == 2 && ps[0].listener.React(m).Raise? && !ps[1].listener.React(m).Raise?
    ensures var sent := Broadcast(ps, m, args);
      |sent| == 2 && sent[0].listener == ps[0].listener.id && sent[1].listener == ps[1].listener.id
    ensures var logged := CallLogs(ps, m);
      |logged| == 2 && CountLevel(logged, Error) == 1 && CountLevel(logged, Info) == 1
  {
    assert Failing(ps, m) == 1 by {
      assert ps[..1] == [ps[0]] && ps[..1][..0] == [];
    }
    CallLogsCount(ps, m);
    BroadcastInOrder(ps, m, args);
  }

  /**
   * Two listeners, the first raising in `close`: the second is still
   * called, and the failure is logged as one error and one info entry.
   */
  method FirstOfTwoRaises(a: Listener, b: Listener, message: string, details: string)
    returns (sent: seq<Invocation>, logged: seq<LogEntry>)
    requires a.version == VersionValue(Int(2)) && b.version == VersionValue(Int(2))
    requires a.React(MethodName.Close) == Raise(message, details)
    requires b.React(MethodName.Close) == Accept
    ensures |sent| == 2 && sent[0].listener == a.id && sent[1].listener == b.id
    ensures |logged| == 2 && CountLevel(logged, Error) == 1 && CountLevel(logged, Info) == 1
  {
    var registry := Register([a, b]);
    FirstOfTwoFails(registry.listeners, MethodName.Close, []);
    var outcome := registry.Close();
    sent := registry.transcript.invocations;
    logged := registry.logger.entries;
  }
}
