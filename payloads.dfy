/**
 * The attribute payloads `Listeners` builds for each event, and the derived
 * keyword `type` (src/robot/output/listeners.py, class `Listeners`).
 *
 * A payload is built from a live domain object; every attribute the object
 * lacks raises AttributeError, which the functions here return as a
 * `Failure` carrying the first attribute found missing, in the order the
 * source reads them.
 */
module Payloads {
  import opened Wrappers
  import opened PyText
  import opened PyValues

  /** The arguments one listener method call receives, or the exception
      raised while building them. */
  type Call = Result<seq<Data>, Error>

  const StartAttrs: seq<string> := ["id", "doc", "starttime", "longname"]
  const EndAttrs: seq<string> := StartAttrs + ["endtime", "elapsedtime", "status", "message"]
  /** Keyword extras: four more names, and three `-name` markers that drop a default name. */
  const KwExtraAttrs: seq<string> := ["args", "assign", "kwname", "libname", "-id", "-longname", "-message"]

  // ---------------------------------------------------------------------------
  // Attribute names

  /** Position of the first occurrence of `x` in `s`. */
  function IndexOf(s: seq<string>, x: string): (k: nat)
    requires x in s
    ensures k < |s| && s[k] == x && x !in s[..k]
  {
    if s[0] == x then 0 else 1 + IndexOf(s[1..], x)
  }

  /** `list.remove(x)`: drops the first occurrence of `x`; the caller checks `x in s`. */
  function RemoveFirst(s: seq<string>, x: string): (r: seq<string>)
    requires x in s
    ensures |r| == |s| - 1
    ensures multiset(r) == multiset(s) - multiset{x}
    ensures exists k :: 0 <= k < |s| && s[k] == x && x !in s[..k] && r == s[..k] + s[k + 1..]
  {
    var k := IndexOf(s, x);
    assert s == s[..k] + [x] + s[k + 1..];
    s[..k] + s[k + 1..]
  }

  predicate IsRemoval(name: string) {
    |name| > 0 && name[0] == '-'
  }

  /** One step of `_get_attr_names`: append `name`, or for `-x` remove the first `x` if any. */
  function ApplyName(names: seq<string>, name: string): seq<string> {
    if !IsRemoval(name) then names + [name]
    else if name[1..] in names then RemoveFirst(names, name[1..])
    else names
  }

  /** The names `_get_attr_names(default, extra)` returns. */
  function AttrNames(default: seq<string>, extra: seq<string>): seq<string>
    decreases |extra|
  {
    if extra == [] then default
    else ApplyName(AttrNames(default, extra[..|extra| - 1]), extra[|extra| - 1])
  }

  /** `_get_attr_names`: builds the list in place, one extra name at a time. */
  method GetAttrNames(default: seq<string>, extra: seq<string>) returns (names: seq<string>)
    ensures names == AttrNames(default, extra)
  {
    names := default;
    for i := 0 to |extra|
      invariant names == AttrNames(default, extra[..i])
    {
      assert extra[..i + 1][..i] == extra[..i];
      var name := extra[i];
      if !IsRemoval(name) {
        names := names + [name];
      } else if name[1..] in names {
        names := RemoveFirst(names, name[1..]);
      }
    }
    assert extra[..|extra|] == extra;
  }

  /** Without `-` markers the extras are appended in order after the defaults. */
  lemma {:induction false} AttrNamesAppend(default: seq<string>, extra: seq<string>)
    requires forall k :: 0 <= k < |extra| ==> !IsRemoval(extra[k])
    ensures AttrNames(default, extra) == default + extra
    decreases |extra|
  {
    if extra != [] {
      var init := extra[..|extra| - 1];
      AttrNamesAppend(default, init);
      assert init + [extra[|extra| - 1]] == extra;
    }
  }

  /** A `-x` marker for a name not (or no longer) present is a no-op, and
      otherwise removes exactly one occurrence. */
  lemma RemovalMarker(names: seq<string>, x: string)
    ensures ApplyName(names, "-" + x) == if x in names then RemoveFirst(names, x) else names
    ensures x in names ==> multiset(ApplyName(names, "-" + x))[x] == multiset(names)[x] - 1
  {
    assert ("-" + x)[1..] == x;
  }

  /** The first occurrence of `x` is at the position before which `x` does not occur. */
  lemma {:induction false} IndexOfAt(s: seq<string>, x: string, k: nat)
    requires k < |s| && s[k] == x && x !in s[..k]
    ensures IndexOf(s, x) == k
  {
    if k > 0 {
      assert s[0] == s[..k][0];
      assert s[1..][..k - 1] == s[1..k];
      IndexOfAt(s[1..], x, k - 1);
    }
  }

  /** Removing the first `x` when its first position is known. */
  lemma RemoveFirstAt(s: seq<string>, x: string, k: nat)
    requires k < |s| && s[k] == x && x !in s[..k]
    ensures RemoveFirst(s, x) == s[..k] + s[k + 1..]
  {
    IndexOfAt(s, x, k);
  }

  /** `AttrNames` over one more extra name is one more `ApplyName`. */
  lemma AttrNamesSnoc(default: seq<string>, extra: seq<string>, k: nat)
    requires k < |extra|
    ensures AttrNames(default, extra[..k + 1]) == ApplyName(AttrNames(default, extra[..k]), extra[k])
  {
    assert extra[..k + 1][..k] == extra[..k];
  }

  /** A `-x` marker whose name first occurs at position `k`. */
  lemma ApplyRemovalAt(names: seq<string>, marker: string, k: nat)
    requires |marker| > 0 && marker[0] == '-'
    requires k < |names| && names[k] == marker[1..] && marker[1..] !in names[..k]
    ensures ApplyName(names, marker) == names[..k] + names[k + 1..]
  {
    RemoveFirstAt(names, marker[1..], k);
  }

  lemma DropId(tail: seq<string>)
    requires "id" !in tail
    ensures ApplyName(["id"] + tail, "-id") == tail
  {
    ApplyRemovalAt(["id"] + tail, "-id", 0);
  }

  lemma DropLongname(tail: seq<string>)
    ensures ApplyName(["doc", "starttime", "longname"] + tail, "-longname") == ["doc", "starttime"] + tail
  {
    var s := ["doc", "starttime", "longname"] + tail;
    assert "longname" !in s[..2];
    ApplyRemovalAt(s, "-longname", 2);
    assert s[3..] == tail;
  }

  const KwNames: seq<string> := ["args", "assign", "kwname", "libname"]

  lemma KeepWithoutMessage(s: seq<string>)
    requires s == ["doc", "starttime"] + KwNames
    ensures ApplyName(s, "-message") == s
  {
    assert "message" !in s;
  }

  lemma DropMessage(rest: seq<string>)
    requires rest == ["endtime", "elapsedtime", "status", "message"] + KwNames
    ensures ApplyName(["doc", "starttime"] + rest, "-message")
         == ["doc", "starttime", "endtime", "elapsedtime", "status"] + KwNames
  {
    var s := ["doc", "starttime"] + rest;
    assert "message" !in s[..5];
    ApplyRemovalAt(s, "-message", 5);
    assert s[6..] == KwNames;
  }

  /** The first four keyword extras are appended after the defaults. */
  lemma KeywordExtrasAppended(default: seq<string>)
    ensures AttrNames(default, KwExtraAttrs[..4]) == default + KwNames
  {
    assert KwExtraAttrs[..4] == KwNames;
    AttrNamesAppend(default, KwNames);
  }

  lemma KeywordDropsId(default: seq<string>, tail: seq<string>)
    requires default + KwNames == ["id"] + tail && "id" !in tail
    ensures AttrNames(default, KwExtraAttrs[..5]) == tail
  {
    KeywordExtrasAppended(default);
    AttrNamesSnoc(default, KwExtraAttrs, 4);
    assert KwExtraAttrs[4] == "-id";
    assert AttrNames(default, KwExtraAttrs[..4]) == ["id"] + tail;
    DropId(tail);
  }

  lemma KeywordDropsLongname(default: seq<string>, rest: seq<string>)
    requires AttrNames(default, KwExtraAttrs[..5]) == ["doc", "starttime", "longname"] + rest
    ensures AttrNames(default, KwExtraAttrs[..6]) == ["doc", "starttime"] + rest
  {
    AttrNamesSnoc(default, KwExtraAttrs, 5);
    DropLongname(rest);
  }

  /** What follows starttime in the end attributes, once `longname` is gone. */
  const EndTail: seq<string> := ["endtime", "elapsedtime", "status", "message"] + KwNames

  lemma StartKeywordIdFirst()
    ensures StartAttrs + KwNames == ["id"] + (["doc", "starttime", "longname"] + KwNames)
    ensures "id" !in ["doc", "starttime", "longname"] + KwNames
  {
  }

  lemma EndKeywordIdFirst()
    ensures EndAttrs + KwNames == ["id"] + (["doc", "starttime", "longname"] + EndTail)
    ensures "id" !in ["doc", "starttime", "longname"] + EndTail
  {
  }

  lemma StartKeywordWithoutLongname()
    ensures AttrNames(StartAttrs, KwExtraAttrs[..6]) == ["doc", "starttime"] + KwNames
  {
    StartKeywordIdFirst();
    KeywordDropsId(StartAttrs, ["doc", "starttime", "longname"] + KwNames);
    KeywordDropsLongname(StartAttrs, KwNames);
  }

  lemma EndKeywordWithoutLongname()
    ensures AttrNames(EndAttrs, KwExtraAttrs[..6]) == ["doc", "starttime"] + EndTail
  {
    EndKeywordIdFirst();
    KeywordDropsId(EndAttrs, ["doc", "starttime", "longname"] + EndTail);
    KeywordDropsLongname(EndAttrs, EndTail);
  }

  /** The last keyword extra is the `-message` marker. */
  lemma MessageMarkerLast(default: seq<string>)
    ensures AttrNames(default, KwExtraAttrs) == ApplyName(AttrNames(default, KwExtraAttrs[..6]), "-message")
  {
    AttrNamesSnoc(default, KwExtraAttrs, 6);
    assert KwExtraAttrs[..7] == KwExtraAttrs;
  }

  /** Keyword start events carry doc, starttime and the four keyword names. */
  lemma KeywordStartAttrNames()
    ensures AttrNames(StartAttrs, KwExtraAttrs) == ["doc", "starttime"] + KwNames
  {
    StartKeywordWithoutLongname();
    MessageMarkerLast(StartAttrs);
    KeepWithoutMessage(["doc", "starttime"] + KwNames);
  }

  /** Keyword end events also keep endtime, elapsedtime and status. */
  lemma KeywordEndAttrNames()
    ensures AttrNames(EndAttrs, KwExtraAttrs) == ["doc", "starttime", "endtime", "elapsedtime", "status"] + KwNames
  {
    EndKeywordWithoutLongname();
    MessageMarkerLast(EndAttrs);
    DropMessage(EndTail);
  }

  // ---------------------------------------------------------------------------
  // Attribute values

  /** `item` has every attribute in `names`. */
  predicate HasAll(item: Item, names: seq<string>) {
    forall k :: 0 <= k < |names| ==> names[k] in item.attrs
  }

  /** Every attribute in `names` is in the payload, as a copy of the item's value. */
  ghost predicate Copied(m: map<string, Data>, item: Item, names: seq<string>)
    reads item.Lists(), item.Dicts()
  {
    forall n :: n in names ==> n in m && n in item.attrs && m[n] == TakeCopy(item.attrs[n])
  }

  /** `_get_attrs`: the payload with each named attribute's (copied) value. */
  function GetAttrs(item: Item, names: seq<string>): (r: Result<map<string, Data>, Error>)
    reads item.Lists(), item.Dicts()
    ensures r.Success? <==> HasAll(item, names)
    ensures r.Success? ==> (forall n :: n in r.value <==> n in names) && Copied(r.value, item, names)
    ensures r.Failure? ==> exists k :: 0 <= k < |names| && names[k] !in item.attrs
                                      && r.error == AttributeError(names[k])
                                      && forall j :: 0 <= j < k ==> names[j] in item.attrs
    decreases |names|
  {
    if names == [] then Success(map[])
    else
      var v :- item.GetAttr(names[0]);
      var rest :- GetAttrs(item, names[1..]);
      Success(rest[names[0] := TakeCopy(v)])
  }

  /** `_get_attr_value`: one attribute, copied. */
  function Attr(item: Item, name: string): (r: Result<Data, Error>)
    reads item.Lists(), item.Dicts()
    ensures r.Success? <==> name in item.attrs
    ensures r.Success? ==> r.value == TakeCopy(item.attrs[name])
    ensures r.Failure? ==> r.error == AttributeError(name)
  {
    var v :- item.GetAttr(name);
    Success(TakeCopy(v))
  }

  /** `'yes' if b else 'no'`. */
  function YesNo(b: bool): Data {
    Str(if b then "yes" else "no")
  }

  /** `'yes' if item.<name> else 'no'`. */
  function YesNoAttr(item: Item, name: string): Result<Data, Error>
    reads item.Lists(), item.Dicts()
  {
    var v :- item.GetAttr(name);
    Success(YesNo(IsTruthy(v)))
  }

  /** `v or ''`. */
  function OrEmpty(v: Value): Data
    reads v.Lists(), v.Dicts()
  {
    if IsTruthy(v) then TakeCopy(v) else Str("")
  }

  /** `item.<name> or ''`. */
  function OrEmptyAttr(item: Item, name: string): Result<Data, Error>
    reads item.Lists(), item.Dicts()
  {
    var v :- item.GetAttr(name);
    Success(OrEmpty(v))
  }

  /** `attrs[key] = value`, where computing `value` may raise. */
  function SetKey(attrs: Result<map<string, Data>, Error>, key: string, value: Result<Data, Error>): Result<map<string, Data>, Error> {
    var m :- attrs;
    var v :- value;
    Success(m[key := v])
  }

  /** `attrs.update(extra)`, where computing `extra` may raise. */
  function Update(attrs: Result<map<string, Data>, Error>, extra: Result<map<string, Data>, Error>): Result<map<string, Data>, Error> {
    var m :- attrs;
    var e :- extra;
    Success(m + e)
  }

  /** Keys present in the payload with the given copied names and added keys. */
  lemma CopiedUnion(a: map<string, Data>, b: map<string, Data>, item: Item, names: seq<string>)
    requires Copied(a, item, names)
    requires forall n :: n in names ==> n !in b
    ensures Copied(a + b, item, names)
  {
  }

  lemma CopiedUpdate(a: map<string, Data>, k: string, v: Data, item: Item, names: seq<string>)
    requires Copied(a, item, names) && k !in names
    ensures Copied(a[k := v], item, names)
  {
  }

  /** A value Python can iterate over: a list, a string or a dict. */
  predicate Iterable(v: Value) {
    v.ListLike? || v.DictLike? || (v.Plain? && (v.data.List? || v.data.Str? || v.data.Dict?))
  }

  /** A list of children; a child is represented by its name. */
  predicate IsChildList(v: Value) {
    v.ListLike? || (v.Plain? && v.data.List?)
  }

  /** Iterating `v` and reading `name` of every element succeeds: `v` is a list
      of children, or an empty string or dict (no element to read). */
  predicate ChildrenReadable(v: Value)
    reads v.Lists(), v.Dicts()
  {
    Iterable(v) && (IsChildList(v) || !IsTruthy(v))
  }

  /** `[t.name for t in item.<attr>]`, children being represented by their
      names. The elements of a string or dict (characters, keys) have no
      `name`; a value that is not iterable raises TypeError. */
  function ChildNames(item: Item, attr: string): (r: Result<Data, Error>)
    reads item.Lists(), item.Dicts()
    ensures r.Success? <==> attr in item.attrs && ChildrenReadable(item.attrs[attr])
    ensures r.Success? && IsChildList(item.attrs[attr]) ==> r.value == TakeCopy(item.attrs[attr])
    ensures r.Success? && !IsChildList(item.attrs[attr]) ==> r.value == List([])
    ensures attr !in item.attrs ==> r == Failure(AttributeError(attr))
    ensures attr in item.attrs && Iterable(item.attrs[attr]) && !ChildrenReadable(item.attrs[attr])
            ==> r == Failure(AttributeError("name"))
    ensures attr in item.attrs && !Iterable(item.attrs[attr]) ==> r == Failure(TypeError(attr))
  {
    var v :- item.GetAttr(attr);
    match v
    case ListLike(l) => Success(List(l.items))
    case Plain(List(xs)) => Success(List(xs))
    case DictLike(d) => if d.entries == map[] then Success(List([])) else Failure(AttributeError("name"))
    case Plain(Dict(m)) => if m == map[] then Success(List([])) else Failure(AttributeError("name"))
    case Plain(Str(s)) => if s == "" then Success(List([])) else Failure(AttributeError("name"))
    case Plain(_) => Failure(TypeError(attr))
  }

  const SuiteKeys: set<string> := {"tests", "suites", "totaltests", "source"}

  /** `_get_suite_attrs`: child test and suite names, the test count and the source. */
  function SuiteAttrs(suite: Item): (r: Result<map<string, Data>, Error>)
    reads suite.Lists(), suite.Dicts()
    ensures r.Success? <==> && "tests" in suite.attrs && ChildrenReadable(suite.attrs["tests"])
                            && "suites" in suite.attrs && ChildrenReadable(suite.attrs["suites"])
                            && "test_count" in suite.attrs && "source" in suite.attrs
    ensures r.Success? ==>
      && r.value.Keys == SuiteKeys
      && r.value["tests"] == ChildNames(suite, "tests").value
      && r.value["suites"] == ChildNames(suite, "suites").value
      && r.value["totaltests"] == TakeCopy(suite.attrs["test_count"])
      && r.value["source"] == OrEmpty(suite.attrs["source"])
  {
    var tests :- ChildNames(suite, "tests");
    var suites :- ChildNames(suite, "suites");
    var count :- Attr(suite, "test_count");
    var source :- OrEmptyAttr(suite, "source");
    Success(map["tests" := tests, "suites" := suites, "totaltests" := count, "source" := source])
  }

  // ---------------------------------------------------------------------------
  // Per-event arguments

  /** The arguments `(item.name, attrs)` most events pass; `name` is read after the attributes. */
  function NamedCall(item: Item, attrs: Result<map<string, Data>, Error>): (r: Call)
    reads item.Lists(), item.Dicts()
    ensures r.Success? <==> attrs.Success? && "name" in item.attrs
    ensures r.Success? ==> r.value == [TakeCopy(item.attrs["name"]), Dict(attrs.value)]
    ensures attrs.Failure? ==> r == Failure(attrs.error)
  {
    var m :- attrs;
    var name :- Attr(item, "name");
    Success([name, Dict(m)])
  }

  /** `start_suite`: the start attributes and `metadata`, then the suite extras. */
  function StartSuiteAttrs(suite: Item): Result<map<string, Data>, Error>
    reads suite.Lists(), suite.Dicts()
  {
    Update(GetAttrs(suite, AttrNames(StartAttrs, ["metadata"])), SuiteAttrs(suite))
  }

  function StartSuiteCall(suite: Item): Call
    reads suite.Lists(), suite.Dicts()
  {
    NamedCall(suite, StartSuiteAttrs(suite))
  }

  /** `_notify_end_suite`: the end attributes and `metadata`, `statistics`, then the suite extras. */
  function EndSuiteAttrs(suite: Item): Result<map<string, Data>, Error>
    reads suite.Lists(), suite.Dicts()
  {
    Update(SetKey(GetAttrs(suite, AttrNames(EndAttrs, ["metadata"])), "statistics", Attr(suite, "stat_message")),
           SuiteAttrs(suite))
  }

  function EndSuiteCall(suite: Item): Call
    reads suite.Lists(), suite.Dicts()
  {
    NamedCall(suite, EndSuiteAttrs(suite))
  }

  /** `start_test` and `_notify_end_test`: the start or end attributes and
      `tags`, then `critical` and `template`. */
  function TestAttrs(test: Item, start: bool): Result<map<string, Data>, Error>
    reads test.Lists(), test.Dicts()
  {
    var attrs := GetAttrs(test, AttrNames(if start then StartAttrs else EndAttrs, ["tags"]));
    SetKey(SetKey(attrs, "critical", YesNoAttr(test, "critical")), "template", OrEmptyAttr(test, "template"))
  }

  function TestCall(test: Item, start: bool): Call
    reads test.Lists(), test.Dicts()
  {
    NamedCall(test, TestAttrs(test, start))
  }

  /** `_create_msg_dict`: timestamp, message and level as they are, `html` as
      yes/no; built exactly when the message has all four attributes. */
  function MessageDict(msg: Item): (r: Result<map<string, Data>, Error>)
    reads msg.Lists(), msg.Dicts()
    ensures r.Success? <==> && "timestamp" in msg.attrs && "message" in msg.attrs
                            && "level" in msg.attrs && "html" in msg.attrs
    ensures r.Success? ==>
      && r.value.Keys == {"timestamp", "message", "level", "html"}
      && Copied(r.value, msg, ["timestamp", "message", "level"])
      && r.value["html"] == YesNo(IsTruthy(msg.attrs["html"]))
  {
    var timestamp :- Attr(msg, "timestamp");
    var message :- Attr(msg, "message");
    var level :- Attr(msg, "level");
    var html :- YesNoAttr(msg, "html");
    Success(map["timestamp" := timestamp, "message" := message, "level" := level, "html" := html])
  }

  /** `log_message(msg_dict)` and `message(msg_dict)`. */
  function MessageCall(msg: Item): Call
    reads msg.Lists(), msg.Dicts()
  {
    var d :- MessageDict(msg);
    Success([Dict(d)])
  }

  // ---------------------------------------------------------------------------
  // What each payload holds

  lemma SuiteKeysFresh(names: seq<string>)
    requires forall k :: 0 <= k < |names| ==> names[k] in EndAttrs + ["metadata"]
    ensures forall n :: n in names ==> n !in SuiteKeys && n != "statistics"
  {
  }

  lemma StatisticsIsNoSuiteKey()
    ensures "statistics" !in SuiteKeys
  {
  }

  /** `start_suite` succeeds exactly when every attribute it reads exists;
      its payload holds the copied start attributes and metadata and the suite extras. */
  lemma StartSuitePayload(suite: Item)
    ensures var r := StartSuiteAttrs(suite);
      && (r.Success? <==> HasAll(suite, StartAttrs + ["metadata"]) && SuiteAttrs(suite).Success?)
      && (r.Success? ==>
            && (forall n :: n in r.value <==> n in StartAttrs + ["metadata"] || n in SuiteKeys)
            && Copied(r.value, suite, StartAttrs + ["metadata"])
            && forall n :: n in SuiteKeys ==> r.value[n] == SuiteAttrs(suite).value[n])
  {
    var names := StartAttrs + ["metadata"];
    AttrNamesAppend(StartAttrs, ["metadata"]);
    var r := StartSuiteAttrs(suite);
    if r.Success? {
      SuiteKeysFresh(names);
      CopiedUnion(GetAttrs(suite, names).value, SuiteAttrs(suite).value, suite, names);
    }
  }

  /** `end_suite` succeeds exactly when every attribute it reads exists. */
  lemma EndSuiteSucceeds(suite: Item)
    ensures EndSuiteAttrs(suite).Success?
        <==> HasAll(suite, EndAttrs + ["metadata"]) && "stat_message" in suite.attrs && SuiteAttrs(suite).Success?
  {
    AttrNamesAppend(EndAttrs, ["metadata"]);
  }

  /** The payload as `_notify_end_suite` assembles it. */
  lemma EndSuiteParts(suite: Item)
    requires EndSuiteAttrs(suite).Success?
    ensures HasAll(suite, EndAttrs + ["metadata"]) && "stat_message" in suite.attrs && SuiteAttrs(suite).Success?
    ensures EndSuiteAttrs(suite).value
         == GetAttrs(suite, EndAttrs + ["metadata"]).value["statistics" := TakeCopy(suite.attrs["stat_message"])]
            + SuiteAttrs(suite).value
  {
    AttrNamesAppend(EndAttrs, ["metadata"]);
  }

  /** `end_suite` payload keys: the end attributes, metadata, `statistics` and the suite extras. */
  lemma EndSuiteKeys(suite: Item)
    requires EndSuiteAttrs(suite).Success?
    ensures forall n :: n in EndSuiteAttrs(suite).value
                    <==> n in EndAttrs + ["metadata"] || n == "statistics" || n in SuiteKeys
  {
    EndSuiteParts(suite);
  }

  /** `end_suite` payload values: copied end attributes and metadata, the
      statistics message and the suite extras. */
  lemma EndSuitePayload(suite: Item)
    requires EndSuiteAttrs(suite).Success?
    ensures var r := EndSuiteAttrs(suite).value;
      && Copied(r, suite, EndAttrs + ["metadata"])
      && r["statistics"] == TakeCopy(suite.attrs["stat_message"])
      && forall n :: n in SuiteKeys ==> r[n] == SuiteAttrs(suite).value[n]
  {
    var names := EndAttrs + ["metadata"];
    EndSuiteParts(suite);
    SuiteKeysFresh(names);
    var attrs := GetAttrs(suite, names).value;
    var stat := TakeCopy(suite.attrs["stat_message"]);
    CopiedUpdate(attrs, "statistics", stat, suite, names);
    CopiedUnion(attrs["statistics" := stat], SuiteAttrs(suite).value, suite, names);
    StatisticsIsNoSuiteKey();
  }

  lemma TestKeysFresh(names: seq<string>)
    requires forall k :: 0 <= k < |names| ==> names[k] in EndAttrs + ["tags"]
    ensures forall n :: n in names ==> n != "critical" && n != "template"
  {
  }

  /** `start_test`/`end_test` carry the copied start or end attributes and
      tags, `critical` as yes/no and `template` or ''. */
  lemma TestPayload(test: Item, start: bool)
    ensures var names := (if start then StartAttrs else EndAttrs) + ["tags"];
      var r := TestAttrs(test, start);
      && (r.Success? <==> HasAll(test, names) && "critical" in test.attrs && "template" in test.attrs)
      && (r.Success? ==>
            && (forall n :: n in r.value <==> n in names || n == "critical" || n == "template")
            && Copied(r.value, test, names)
            && r.value["critical"] == YesNo(IsTruthy(test.attrs["critical"]))
            && r.value["template"] == OrEmpty(test.attrs["template"]))
  {
    var defaults := if start then StartAttrs else EndAttrs;
    var names := defaults + ["tags"];
    AttrNamesAppend(defaults, ["tags"]);
    var r := TestAttrs(test, start);
    if r.Success? {
      TestKeysFresh(names);
      var attrs := GetAttrs(test, names).value;
      var critical := YesNo(IsTruthy(test.attrs["critical"]));
      CopiedUpdate(attrs, "critical", critical, test, names);
      CopiedUpdate(attrs["critical" := critical], "template", OrEmpty(test.attrs["template"]), test, names);
    }
  }

  // ---------------------------------------------------------------------------
  // Derived keyword type

  /** The reported keyword type and the new pending setup/teardown slot. */
  datatype KwType = KwType(reported: string, pending: Option<string>)

  /** `self._setup_or_teardown_type or 'Keyword'`. */
  function PendingOr(pending: Option<string>): string {
    if pending.Some? && pending.value != "" then pending.value else "Keyword"
  }

  /** `_get_setup_or_teardown_type`: scope, a space, the title-cased keyword type. */
  function SetupOrTeardownType(runningTest: bool, kwType: string): (r: string)
    ensures var scope := if runningTest then "Test " else "Suite ";
      |r| == |scope| + |kwType| && r[..|scope|] == scope && r[|scope|..] == Title(kwType)
  {
    (if runningTest then "Test" else "Suite") + " " + Title(kwType)
  }

  /** `_get_keyword_type` for a keyword whose `type` is the string `kwType`. */
  function KeywordTypeOf(runningTest: bool, pending: Option<string>, kwType: string, start: bool): (r: KwType)
    ensures kwType == "kw" ==> r.reported == PendingOr(pending) && r.pending == pending
    ensures kwType != "kw" ==>
      && r.reported == (if runningTest then "Test " else "Suite ") + Title(kwType)
      && r.pending == (if start then Some(r.reported) else None)
  {
    if kwType == "kw" then KwType(PendingOr(pending), pending)
    else
      var kind := SetupOrTeardownType(runningTest, kwType);
      KwType(kind, if start then Some(kind) else None)
  }

  /** `_get_keyword_type` on a keyword object: a `type` that is not a string
      compares unequal to 'kw' and then has no `title` method. */
  function KeywordType(kw: Item, runningTest: bool, pending: Option<string>, start: bool): (r: Result<KwType, Error>)
    ensures r.Success? <==> "type" in kw.attrs && kw.attrs["type"].Plain? && kw.attrs["type"].data.Str?
    ensures r.Success? ==> r.value == KeywordTypeOf(runningTest, pending, kw.attrs["type"].data.s, start)
  {
    var t :- kw.GetAttr("type");
    if t.Plain? && t.data.Str? then Success(KeywordTypeOf(runningTest, pending, t.data.s, start))
    else Failure(AttributeError("title"))
  }

  /** One listener's worth of `start_keyword`/`end_keyword`: the new pending
      slot (updated before `kw.name` is read) and the call's arguments. */
  datatype KwStep = KwStep(pending: Option<string>, call: Call)

  /** The attribute names keyword events read. */
  function KeywordAttrNames(start: bool): seq<string> {
    AttrNames(if start then StartAttrs else EndAttrs, KwExtraAttrs)
  }

  function KeywordStep(kw: Item, runningTest: bool, pending: Option<string>, start: bool): KwStep
    reads kw.Lists(), kw.Dicts()
  {
    var attrs := GetAttrs(kw, KeywordAttrNames(start));
    if attrs.Failure? then KwStep(pending, Failure(attrs.error))
    else
      match KeywordType(kw, runningTest, pending, start)
      case Failure(e) => KwStep(pending, Failure(e))
      case Success(t) => KwStep(t.pending, NamedCall(kw, Success(attrs.value["type" := Str(t.reported)])))
  }

  /** Keyword events carry the copied keyword attributes (no id, longname or
      message) and the derived `type`; the slot follows `_get_keyword_type`
      once the attributes were read, even if `kw.name` then fails. */
  lemma KeywordPayload(kw: Item, runningTest: bool, pending: Option<string>, start: bool)
    ensures var names := if start then ["doc", "starttime"] + KwNames
                         else ["doc", "starttime", "endtime", "elapsedtime", "status"] + KwNames;
      var s := KeywordStep(kw, runningTest, pending, start);
      var t := KeywordType(kw, runningTest, pending, start);
      && (s.call.Success? <==> HasAll(kw, names) && t.Success? && "name" in kw.attrs)
      && s.pending == (if HasAll(kw, names) && t.Success? then t.value.pending else pending)
      && (s.call.Success? ==>
            && |s.call.value| == 2 && s.call.value[0] == TakeCopy(kw.attrs["name"]) && s.call.value[1].Dict?
            && (forall n :: n in s.call.value[1].entries <==> n in names || n == "type")
            && Copied(s.call.value[1].entries, kw, names)
            && s.call.value[1].entries["type"] == Str(t.value.reported))
  {
    KeywordStartAttrNames();
    KeywordEndAttrNames();
    var names := KeywordAttrNames(start);
    assert "type" !in names;
    var s := KeywordStep(kw, runningTest, pending, start);
    if s.call.Success? {
      CopiedUpdate(GetAttrs(kw, names).value, "type", Str(KeywordType(kw, runningTest, pending, start).value.reported), kw, names);
    }
  }

  /** Every listener is handed the same type: evaluating the step again from
      the slot it left gives the same slot and the same arguments. */
  lemma KeywordStepRepeats(kw: Item, runningTest: bool, pending: Option<string>, start: bool)
    ensures var s := KeywordStep(kw, runningTest, pending, start);
            KeywordStep(kw, runningTest, s.pending, start) == s
  {
  }

  /** The types a run of keyword events reports, and the slot left at the end. */
  datatype Run = Run(reported: seq<string>, pending: Option<string>)

  /** A run of start/end keyword events, as (keyword type, is start) pairs. */
  function RunKeywords(runningTest: bool, pending: Option<string>, events: seq<(string, bool)>): Run
    decreases |events|
  {
    if events == [] then Run([], pending)
    else
      var t := KeywordTypeOf(runningTest, pending, events[0].0, events[0].1);
      var rest := RunKeywords(runningTest, t.pending, events[1..]);
      Run([t.reported] + rest.reported, rest.pending)
  }

  /** Plain keywords run while a label is pending all report that label and
      leave it pending. */
  lemma {:induction false} PlainKeywordsInherit(runningTest: bool, pending: Option<string>, events: seq<(string, bool)>)
    requires forall k :: 0 <= k < |events| ==> events[k].0 == "kw"
    ensures RunKeywords(runningTest, pending, events).pending == pending
    ensures RunKeywords(runningTest, pending, events).reported == seq(|events|, _ => PendingOr(pending))
    decreases |events|
  {
    if events != [] {
      PlainKeywordsInherit(runningTest, pending, events[1..]);
    }
  }

  lemma TestSetupType()
    ensures SetupOrTeardownType(true, "setup") == "Test Setup"
  {
    TitleLowerWord("setup");
  }

  lemma SuiteTeardownType()
    ensures SetupOrTeardownType(false, "teardown") == "Suite Teardown"
  {
    TitleLowerWord("teardown");
  }

  /** One event at a time: the type reported first, then the rest of the run. */
  lemma RunStep(runningTest: bool, pending: Option<string>, events: seq<(string, bool)>, reported: string, next: Option<string>)
    requires |events| > 0
    requires KeywordTypeOf(runningTest, pending, events[0].0, events[0].1) == KwType(reported, next)
    ensures var tail := RunKeywords(runningTest, next, events[1..]);
      RunKeywords(runningTest, pending, events) == Run([reported] + tail.reported, tail.pending)
  {
  }

  /** A setup or teardown with a nested keyword, then a keyword after it: the
      nested keyword reports the setup/teardown label (e.g. "Test Setup"), the
      later one "Keyword". */
  lemma SetupScenario(runningTest: bool, kind: string)
    requires kind != "kw"
    ensures var run := RunKeywords(runningTest, None, [(kind, true), ("kw", true), ("kw", false), (kind, false), ("kw", true)]);
      var l := SetupOrTeardownType(runningTest, kind);
      run.reported == [l, l, l, l, "Keyword"] && run.pending == None
  {
    var events := [(kind, true), ("kw", true), ("kw", false), (kind, false), ("kw", true)];
    var l := SetupOrTeardownType(runningTest, kind);
    RunStep(runningTest, None, events[4..], "Keyword", None);
    assert RunKeywords(runningTest, None, events[4..]).reported == ["Keyword"];
    RunStep(runningTest, Some(l), events[3..], l, None);
    RunStep(runningTest, Some(l), events[2..], l, Some(l));
    RunStep(runningTest, Some(l), events[1..], l, Some(l));
    RunStep(runningTest, None, events, l, Some(l));
  }

  /** The slot holds one label, not a stack: a setup/teardown keyword that
      ends inside another clears the slot for the rest of the outer one. */
  lemma SingleSlotScenario(runningTest: bool, outer: string, inner: string)
    requires outer != "kw" && inner != "kw"
    ensures var run := RunKeywords(runningTest, None, [(outer, true), (inner, true), (inner, false), ("kw", true)]);
      var o := SetupOrTeardownType(runningTest, outer);
      var i := SetupOrTeardownType(runningTest, inner);
      run.reported == [o, i, i, "Keyword"] && run.pending == None
  {
    var events := [(outer, true), (inner, true), (inner, false), ("kw", true)];
    var o := SetupOrTeardownType(runningTest, outer);
    var i := SetupOrTeardownType(runningTest, inner);
    RunStep(runningTest, None, events[3..], "Keyword", None);
    assert RunKeywords(runningTest, None, events[3..]).reported == ["Keyword"];
    RunStep(runningTest, Some(i), events[2..], i, None);
    RunStep(runningTest, Some(o), events[1..], i, Some(i));
    RunStep(runningTest, None, events, o, Some(o));
  }
}
