/**
 * `ListenerProxy` (src/robot/output/listeners.py): the adapter around one
 * listener, how it is taken into use and validated, and what calling one of
 * its methods does to the log.
 *
 * A listener is represented by what it does when each listener method is
 * called: it returns, it raises, or it logs a message back into the run.
 * Loading a listener by name is abstracted to its outcome.
 */
module ListenerProxies {
  import opened Wrappers
  import opened PyText
  import opened PyValues
  import opened Logging

  /** The listener methods (`ListenerProxy._methods`). */
  datatype MethodName =
    | StartSuite | EndSuite | StartTest | EndTest | StartKeyword | EndKeyword
    | LogMessage | Message
    | OutputFile | ReportFile | LogFile | DebugFile | XunitFile
    | Close | LibraryImport | ResourceImport | VariablesImport

  /** The method's name as error messages show it. */
  function MethodText(m: MethodName): string {
    match m
    case StartSuite => "start_suite"
    case EndSuite => "end_suite"
    case StartTest => "start_test"
    case EndTest => "end_test"
    case StartKeyword => "start_keyword"
    case EndKeyword => "end_keyword"
    case LogMessage => "log_message"
    case Message => "message"
    case OutputFile => "output_file"
    case ReportFile => "report_file"
    case LogFile => "log_file"
    case DebugFile => "debug_file"
    case XunitFile => "xunit_file"
    case Close => "close"
    case LibraryImport => "library_import"
    case ResourceImport => "resource_import"
    case VariablesImport => "variables_import"
  }

  /** The kinds `imported` is told about; each selects `<kind>_import`. */
  datatype ImportType = Library | Resource | Variables

  function ImportMethod(t: ImportType): MethodName {
    match t
    case Library => LibraryImport
    case Resource => ResourceImport
    case Variables => VariablesImport
  }

  /** The files `output_file` is told about; each selects `<kind>_file`. */
  datatype FileType = Output | Report | Log | Debug | Xunit

  function FileMethod(f: FileType): MethodName {
    match f
    case Output => OutputFile
    case Report => ReportFile
    case Log => LogFile
    case Debug => DebugFile
    case Xunit => XunitFile
  }

  /** What a listener method does when called: return, raise an exception
      (with the message and details the error report shows), or log `msg`,
      which the run hands straight back to the listeners' `log_message`. */
  datatype Reaction = Accept | Raise(message: string, details: string) | LogBack(msg: Item)

  /** The listener's `ROBOT_LISTENER_API_VERSION` attribute, if any. */
  datatype VersionAttr = NoVersion | VersionValue(value: Data)

  /** A listener object: an identity, its version attribute and the methods
      it defines. A method it does not define does nothing when called. */
  datatype Listener = Listener(id: nat, version: VersionAttr, methods: map<MethodName, Reaction>) {

    function React(m: MethodName): Reaction {
      if m in methods then methods[m] else Accept
    }
  }

  /** The outcome of importing a listener by name. */
  datatype LoadResult = Loaded(listener: Listener) | LoadFailed(message: string)

  /** A listener as given to `Listeners`: an object (with its type name), or a
      string naming a class or module, `name` being the string without its
      arguments. */
  datatype ListenerSpec =
    | Instance(listener: Listener, typeName: string)
    | ByName(spec: string, name: string, load: LoadResult)

  /** The `DataError`s taking a listener into use can raise. */
  datatype DataError =
    | ImportFailed(message: string)
    | MissingVersion(name: string)
    | UnsupportedVersion(name: string, value: Data)

  function ErrorMessage(e: DataError): string {
    match e
    case ImportFailed(m) => m
    case MissingVersion(n) =>
      "Listener '" + n + "' does not have mandatory 'ROBOT_LISTENER_API_VERSION' attribute."
    case UnsupportedVersion(n, v) =>
      "Listener '" + n + "' uses unsupported API version '" + Show(v) + "'."
  }

  /** `int(v)`: `None` where Python raises ValueError or TypeError. */
  function IntOf(v: Data): (r: Option<int>)
    ensures v.Int? ==> r == Some(v.i)
    ensures v.Str? ==> r == ParseInt(v.s)
    ensures v.NoneValue? || v.List? || v.Dict? ==> r == None
  {
    match v
    case Str(s) => ParseInt(s)
    case Int(i) => Some(i)
    case Bool(b) => Some(if b then 1 else 0)
    case NoneValue => None
    case List(_) => None
    case Dict(_) => None
  }

  /** `_get_version` for the listener named `name`. */
  function GetVersion(name: string, attr: VersionAttr): (r: Result<int, DataError>)
    ensures r.Success? <==> attr.VersionValue? && IntOf(attr.value) == Some(2)
    ensures r.Success? ==> r.value == 2
    ensures attr.NoVersion? ==> r == Failure(MissingVersion(name))
    ensures attr.VersionValue? && IntOf(attr.value) != Some(2) ==> r == Failure(UnsupportedVersion(name, attr.value))
  {
    match attr
    case NoVersion => Failure(MissingVersion(name))
    case VersionValue(v) =>
      match IntOf(v)
      case None => Failure(UnsupportedVersion(name, v))
      case Some(version) =>
        if version != 2 then Failure(UnsupportedVersion(name, v)) else Success(version)
  }

  /** A version written as an integer's decimal text is accepted exactly when
      the integer is 2. */
  lemma VersionText(name: string, n: int)
    ensures GetVersion(name, VersionValue(Str(IntToString(n)))).Success? <==> n == 2
  {
    ParseIntRoundTrip(n);
  }

  /** The adapter: the listener, the name it is reported by, its API version. */
  datatype ListenerProxy = ListenerProxy(name: string, listener: Listener, version: int)

  /** `_import_listener`: the listener object and its name. */
  function ImportListener(spec: ListenerSpec): Result<(Listener, string), DataError> {
    match spec
    case Instance(l, typeName) => Success((l, typeName))
    case ByName(_, name, Loaded(l)) => Success((l, name))
    case ByName(_, _, LoadFailed(m)) => Failure(ImportFailed(m))
  }

  /** `ListenerProxy(listener)`: import, then name, then version check. */
  function NewProxy(spec: ListenerSpec): (r: Result<ListenerProxy, DataError>)
    ensures r.Success? ==> r.value.version == 2
    ensures spec.Instance? ==>
      && (r.Success? <==> GetVersion(spec.typeName, spec.listener.version).Success?)
      && (r.Success? ==> r.value == ListenerProxy(spec.typeName, spec.listener, 2))
      && (r.Failure? ==> r.error == GetVersion(spec.typeName, spec.listener.version).error)
    ensures spec.ByName? && spec.load.LoadFailed? ==> r == Failure(ImportFailed(spec.load.message))
    ensures spec.ByName? && spec.load.Loaded? ==>
      && (r.Success? <==> GetVersion(spec.name, spec.load.listener.version).Success?)
      && (r.Success? ==> r.value == ListenerProxy(spec.name, spec.load.listener, 2))
      && (r.Failure? ==> r.error == GetVersion(spec.name, spec.load.listener.version).error)
  {
    var (listener, name) :- ImportListener(spec);
    var version :- GetVersion(name, listener.version);
    Success(ListenerProxy(name, listener, version))
  }

  /** The name an import failure reports: the string as given, or the type name. */
  function SpecLabel(spec: ListenerSpec): string {
    match spec
    case Instance(_, typeName) => typeName
    case ByName(s, _, _) => s
  }

  const ImportFailedText := "Taking listener '%s' into use failed: %s"

  /** The error `_import_listeners` logs for a spec that cannot be taken into use. */
  function ImportError(spec: ListenerSpec, e: DataError): LogEntry {
    LogEntry(Error, ImportFailedText, ImportErrorArgs(spec, e))
  }

  function ImportErrorArgs(spec: ListenerSpec, e: DataError): seq<string> {
    [SpecLabel(spec), ErrorMessage(e)]
  }

  /** The adapters `_import_listeners` yields, in order. */
  function ImportedProxies(specs: seq<ListenerSpec>): seq<ListenerProxy>
    decreases |specs|
  {
    if specs == [] then []
    else
      var last := specs[|specs| - 1];
      ImportedProxies(specs[..|specs| - 1]) + (if NewProxy(last).Success? then [NewProxy(last).value] else [])
  }

  /** The errors `_import_listeners` logs, in order. */
  function ImportErrors(specs: seq<ListenerSpec>): seq<LogEntry>
    decreases |specs|
  {
    if specs == [] then []
    else
      var last := specs[|specs| - 1];
      ImportErrors(specs[..|specs| - 1])
        + (if NewProxy(last).Failure? then [ImportError(last, NewProxy(last).error)] else [])
  }

  /** One more spec adds its adapter, or its error, at the end. */
  lemma ImportSnoc(specs: seq<ListenerSpec>, i: nat)
    requires i < |specs|
    ensures var r := NewProxy(specs[i]);
            && ImportedProxies(specs[..i + 1]) == ImportedProxies(specs[..i]) + (if r.Success? then [r.value] else [])
            && ImportErrors(specs[..i + 1]) == ImportErrors(specs[..i]) + (if r.Failure? then [ImportError(specs[i], r.error)] else [])
  {
    assert specs[..i + 1][..i] == specs[..i];
  }

  /** Importing is done spec by spec: the adapters of a concatenation are
      those of its parts, in order. */
  lemma {:induction false} ImportedConcat(a: seq<ListenerSpec>, b: seq<ListenerSpec>)
    ensures ImportedProxies(a + b) == ImportedProxies(a) + ImportedProxies(b)
    decreases |b|
  {
    if b == [] {
      assert a + b == a;
    } else {
      var init := b[..|b| - 1];
      assert (a + b)[..|a + b| - 1] == a + init;
      assert (a + b)[|a + b| - 1] == b[|b| - 1];
      ImportedConcat(a, init);
    }
  }

  /** The same for the errors logged. */
  lemma {:induction false} ImportErrorsConcat(a: seq<ListenerSpec>, b: seq<ListenerSpec>)
    ensures ImportErrors(a + b) == ImportErrors(a) + ImportErrors(b)
    decreases |b|
  {
    if b == [] {
      assert a + b == a;
    } else {
      var init := b[..|b| - 1];
      assert (a + b)[..|a + b| - 1] == a + init;
      assert (a + b)[|a + b| - 1] == b[|b| - 1];
      ImportErrorsConcat(a, init);
    }
  }

  /** Every spec yields either one adapter or one error entry, never both,
      and every adapter taken into use has API version 2. */
  lemma {:induction false} ImportAccounting(specs: seq<ListenerSpec>)
    ensures |ImportedProxies(specs)| + |ImportErrors(specs)| == |specs|
    ensures CountLevel(ImportErrors(specs), Error) == |ImportErrors(specs)|
    ensures forall p :: p in ImportedProxies(specs) ==> p.version == 2
    decreases |specs|
  {
    if specs != [] {
      var init := specs[..|specs| - 1];
      var last := specs[|specs| - 1];
      ImportAccounting(init);
      var extra := if NewProxy(last).Failure? then [ImportError(last, NewProxy(last).error)] else [];
      CountLevelAppend(ImportErrors(init), extra, Error);
    }
  }

  /** When every spec can be taken into use, the adapters are the specs' own,
      one per spec in the same order, and nothing is logged. */
  lemma {:induction false} ImportAllLoadable(specs: seq<ListenerSpec>)
    requires forall k :: 0 <= k < |specs| ==> NewProxy(specs[k]).Success?
    ensures |ImportedProxies(specs)| == |specs|
    ensures forall k :: 0 <= k < |specs| ==> ImportedProxies(specs)[k] == NewProxy(specs[k]).value
    ensures ImportErrors(specs) == []
    decreases |specs|
  {
    if specs != [] {
      var n := |specs| - 1;
      var init := specs[..n];
      ImportAllLoadable(init);
      assert NewProxy(specs[n]).Success?;
      assert ImportedProxies(specs) == ImportedProxies(init) + [NewProxy(specs[n]).value];
      forall k | 0 <= k < |specs|
        ensures ImportedProxies(specs)[k] == NewProxy(specs[k]).value
      {
        if k < n {
          assert specs[k] == init[k];
        }
      }
    }
  }

  // ---------------------------------------------------------------------------
  // Calling listener methods

  /** One listener method invocation as the listener sees it. */
  datatype Invocation = Invocation(listener: nat, event: MethodName, args: seq<Data>)

  /** Every listener method invocation of the run, in order. */
  class Transcript {
    var invocations: seq<Invocation>

    constructor ()
      ensures invocations == []
    {
      invocations := [];
    }

    method Record(i: Invocation)
      modifies this
      ensures invocations == old(invocations) + [i]
    {
      invocations := invocations + [i];
    }
  }

  const CallFailed := "Calling method '%s' of listener '%s' failed: %s"
  const CallDetails := "Details:\n%s"

  /** What `call_method` logs when calling `m` on `p`: nothing, or one error
      and one info entry when the method raises. */
  function CallLog(p: ListenerProxy, m: MethodName): (r: seq<LogEntry>)
    ensures !p.listener.React(m).Raise? ==> r == []
    ensures p.listener.React(m).Raise? ==>
      |r| == 2 && r[0].level == Error && r[1].level == Info
  {
    match p.listener.React(m)
    case Raise(message, details) =>
      [LogEntry(Error, CallFailed, [MethodText(m), p.name, message]), LogEntry(Info, CallDetails, [details])]
    case _ => []
  }

  /** Calling `m` on every adapter in order: the invocations. */
  function Broadcast(ps: seq<ListenerProxy>, m: MethodName, args: seq<Data>): seq<Invocation>
    decreases |ps|
  {
    if ps == [] then [] else Broadcast(ps[..|ps| - 1], m, args) + [Invocation(ps[|ps| - 1].listener.id, m, args)]
  }

  /** Calling `m` on every adapter in order: the log entries. */
  function CallLogs(ps: seq<ListenerProxy>, m: MethodName): seq<LogEntry>
    decreases |ps|
  {
    if ps == [] then [] else CallLogs(ps[..|ps| - 1], m) + CallLog(ps[|ps| - 1], m)
  }

  /** The number of adapters whose method `m` raises. */
  function Failing(ps: seq<ListenerProxy>, m: MethodName): (n: nat)
    ensures n <= |ps|
    decreases |ps|
  {
    if ps == [] then 0 else Failing(ps[..|ps| - 1], m) + (if ps[|ps| - 1].listener.React(m).Raise? then 1 else 0)
  }

  /** Every adapter is called, in list order, whatever the others did. */
  lemma {:induction false} BroadcastInOrder(ps: seq<ListenerProxy>, m: MethodName, args: seq<Data>)
    ensures |Broadcast(ps, m, args)| == |ps|
    ensures forall k :: 0 <= k < |ps| ==> Broadcast(ps, m, args)[k] == Invocation(ps[k].listener.id, m, args)
    decreases |ps|
  {
    if ps != [] {
      BroadcastInOrder(ps[..|ps| - 1], m, args);
    }
  }

  /** Each failing call logs exactly one error and one info entry, and a
      call that does not fail logs nothing. */
  lemma {:induction false} CallLogsCount(ps: seq<ListenerProxy>, m: MethodName)
    ensures CountLevel(CallLogs(ps, m), Error) == Failing(ps, m)
    ensures CountLevel(CallLogs(ps, m), Info) == Failing(ps, m)
    ensures |CallLogs(ps, m)| == 2 * Failing(ps, m)
    decreases |ps|
  {
    if ps != [] {
      var init := ps[..|ps| - 1];
      var last := CallLog(ps[|ps| - 1], m);
      CallLogsCount(init, m);
      CountLevelAppend(CallLogs(init, m), last, Error);
      CountLevelAppend(CallLogs(init, m), last, Info);
      if last != [] {
        assert last == [last[0]] + [last[1]];
        CountLevelAppend([last[0]], [last[1]], Error);
        CountLevelAppend([last[0]], [last[1]], Info);
      }
    }
  }

  /** Adding one more adapter to a broadcast. */
  lemma BroadcastSnoc(ps: seq<ListenerProxy>, i: nat, m: MethodName, args: seq<Data>)
    requires i < |ps|
    ensures Broadcast(ps[..i + 1], m, args) == Broadcast(ps[..i], m, args) + [Invocation(ps[i].listener.id, m, args)]
    ensures CallLogs(ps[..i + 1], m) == CallLogs(ps[..i], m) + CallLog(ps[i], m)
  {
    assert ps[..i + 1][..i] == ps[..i];
  }
}
