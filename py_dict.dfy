/** The validated-data dictionaries that the serializers receive and edit in place before saving. */
module PyDict {
  import opened Wrappers

  /** A field value after validation. */
  datatype Value = Int(i: int) | Bool(b: bool) | Str(s: string) | Null

  /** Python truthiness: zero, false, the empty string and `None` are false. */
  predicate Truthy(v: Value) {
    match v
    case Int(i) => i != 0
    case Bool(b) => b
    case Str(s) => s != ""
    case Null => false
  }

  /** `d.get(key)`: a missing key reads as `None`, which is falsy. */
  function Get(d: map<string, Value>, key: string): (r: Option<Value>)
    ensures r.Some? <==> key in d
    ensures r.Some? ==> r.value == d[key]
  {
    if key in d then Some(d[key]) else None
  }

  predicate TruthyAt(d: map<string, Value>, key: string) {
    key in d && Truthy(d[key])
  }

  /** A dictionary the code mutates in place. */
  class Dict {
    var items: map<string, Value>

    constructor (items: map<string, Value>)
      ensures this.items == items
    {
      this.items := items;
    }

    /** `d.pop(key, None)`: removes the key and returns what it held. */
    method Pop(key: string) returns (v: Option<Value>)
      modifies this
      ensures v == Get(old(items), key)
      ensures items == old(items) - {key}
    {
      v := Get(items, key);
      items := items - {key};
    }

    /** `d[key] = value`. */
    method Set(key: string, value: Value)
      modifies this
      ensures items == old(items)[key := value]
    {
      items := items[key := value];
    }
  }
}
