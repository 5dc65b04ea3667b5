/**
 * The Python values that flow through the listener layer.
 *
 * `Data` is a value as a listener receives it: it holds no reference to any
 * object of the run. The attributes of the run's domain objects (suites,
 * tests, keywords, messages) are `Value`s: plain data, or a list or dict that
 * the run may still mutate in place (`LiveList`, `LiveDict`).
 */
module PyValues {
  import opened Wrappers
  import opened PyText

  datatype Data =
    | Str(s: string)
    | Int(i: int)
    | Bool(b: bool)
    | NoneValue
    | List(items: seq<Data>)
    | Dict(entries: map<string, Data>)

  /** Python truthiness (`bool(d)`). */
  predicate Truthy(d: Data) {
    match d
    case Str(s) => s != []
    case Int(i) => i != 0
    case Bool(b) => b
    case NoneValue => false
    case List(items) => items != []
    case Dict(entries) => entries != map[]
  }

  /** `str(d)` for the scalar kinds; a list or dict is rendered by a placeholder. */
  function Show(d: Data): string {
    match d
    case Str(s) => s
    case Int(i) => IntToString(i)
    case Bool(b) => if b then "True" else "False"
    case NoneValue => "None"
    case List(_) => "[...]"
    case Dict(_) => "{...}"
  }

  /** A Python list owned by the run, mutable in place. */
  class LiveList {
    var items: seq<Data>

    constructor (items: seq<Data>)
      ensures this.items == items
    {
      this.items := items;
    }
  }

  /** A Python dict owned by the run, mutable in place. */
  class LiveDict {
    var entries: map<string, Data>

    constructor (entries: map<string, Data>)
      ensures this.entries == entries
    {
      this.entries := entries;
    }
  }

  /** An attribute value of a domain object. `ListLike`/`DictLike` are what
      `is_list_like`/`is_dict_like` accept. */
  datatype Value = Plain(data: Data) | ListLike(list: LiveList) | DictLike(dict: LiveDict) {

    function Lists(): set<LiveList> {
      if ListLike? then {list} else {}
    }

    function Dicts(): set<LiveDict> {
      if DictLike? then {dict} else {}
    }
  }

  /**
   * `_take_copy_of_mutable_value`: a dict-like value becomes a new dict and a
   * list-like value a new list holding what the container holds right now;
   * any other value is passed on as it is.
   */
  function TakeCopy(v: Value): (r: Data)
    reads v.Lists(), v.Dicts()
    ensures v.ListLike? ==> r.List? && r.items == v.list.items
    ensures v.DictLike? ==> r.Dict? && r.entries == v.dict.entries
    ensures v.Plain? ==> r == v.data
  {
    match v
    case Plain(d) => d
    case ListLike(l) => List(l.items)
    case DictLike(d) => Dict(d.entries)
  }

  /** Truthiness of an attribute value, as `x or ''` and `'yes' if x else 'no'` test it. */
  predicate IsTruthy(v: Value)
    reads v.Lists(), v.Dicts()
  {
    Truthy(TakeCopy(v))
  }

  /** The exceptions that reading attributes of a domain object can raise. */
  datatype Error =
    | AttributeError(attr: string)  // the object has no attribute `attr`
    | TypeError(attr: string)       // attribute `attr` cannot be iterated

  /** A domain object (suite, test, keyword, message): its attributes by name. */
  datatype Item = Item(attrs: map<string, Value>) {

    function Lists(): set<LiveList> {
      set n | n in attrs && attrs[n].ListLike? :: attrs[n].list
    }

    function Dicts(): set<LiveDict> {
      set n | n in attrs && attrs[n].DictLike? :: attrs[n].dict
    }

    /** `getattr(item, name)`. */
    function GetAttr(name: string): (r: Result<Value, Error>)
      ensures r.Success? <==> name in attrs
      ensures r.Success? ==> r.value == attrs[name]
                                        && r.value.Lists() <= Lists() && r.value.Dicts() <= Dicts()
      ensures r.Failure? ==> r.error == AttributeError(name)
    {
      if name in attrs then Success(attrs[name]) else Failure(AttributeError(name))
    }
  }
}
