/**
 * The application state store (src/core/store.rs): dynamic values and a
 * string-keyed map of them with typed accessors that fall back to defaults.
 *
 * `f64` numbers are modelled as `real`. Rust's float formatting and string
 * to float parsing are not modelled; they are passed in as a `NumberText`.
 */
module StoreCore {
  import opened Prims

  /** How numbers are written as text and read back (`format!`/`to_string` and `str::parse::<f64>`). */
  datatype NumberText = NumberText(format: real -> string, parse: string -> Option<real>)

  datatype Value = Null | Bool(b: bool) | Number(n: real) | String(s: string) {

    /** `as_str`: the text of a `String`, nothing for the other variants. */
    function AsStr(): (r: Option<string>)
      ensures r.Some? <==> String?
      ensures r.Some? ==> r.value == s
    {
      match this
      case String(t) => Some(t)
      case _ => None
    }

    /** `as_number`: the number of a `Number`, nothing for the other variants. */
    function AsNumber(): (r: Option<real>)
      ensures r.Some? <==> Number?
      ensures r.Some? ==> r.value == n
    {
      match this
      case Number(m) => Some(m)
      case _ => None
    }

    /** `as_bool`: the flag of a `Bool`, nothing for the other variants. */
    function AsBool(): (r: Option<bool>)
      ensures r.Some? <==> Bool?
      ensures r.Some? ==> r.value == b
    {
      match this
      case Bool(f) => Some(f)
      case _ => None
    }

    predicate IsNull() {
      Null?
    }

    /**
     * `to_string_value`: `Null` is the empty text, a flag is "true" or
     * "false", a string is itself, and a number is written by `text`.
     */
    function ToStringValue(text: NumberText): (r: string)
      ensures Null? ==> r == ""
      ensures Bool? ==> r == (if b then "true" else "false")
      ensures String? ==> r == s
    {
      match this
      case Null => ""
      case Bool(f) => if f then "true" else "false"
      case Number(m) => text.format(m)
      case String(t) => t
    }

    /** `try_parse_number`: a number is itself, a string is parsed by `text`, the rest have none. */
    function TryParseNumber(text: NumberText): (r: Option<real>)
      ensures Number? ==> r == Some(n)
      ensures String? ==> r == text.parse(s)
      ensures Null? || Bool? ==> r == None
    {
      match this
      case Number(m) => Some(m)
      case String(t) => text.parse(t)
      case _ => None
    }
  }

  /** `Value::default()`. */
  const DefaultValue: Value := Null

  /** Each accessor recovers what the matching constructor stored and rejects the other variants. */
  lemma {:induction false} AccessorsRoundTrip(s: string, n: real, b: bool)
    ensures String(s).AsStr() == Some(s) && Number(n).AsStr() == None && Bool(b).AsStr() == None
    ensures Number(n).AsNumber() == Some(n) && String(s).AsNumber() == None && Bool(b).AsNumber() == None
    ensures Bool(b).AsBool() == Some(b) && String(s).AsBool() == None && Number(n).AsBool() == None
    ensures Null.AsStr() == None && Null.AsNumber() == None && Null.AsBool() == None
  {
  }

  /** A centralized key-value store for application state. */
  class Store {
    var data: map<string, Value>

    /** `Store::new`: no keys. */
    constructor ()
      ensures data == map[]
    {
      data := map[];
    }

    /** `get`: the value stored under `key`, if any. */
    function Get(key: string): (r: Option<Value>)
      reads this
      ensures r.Some? <==> key in data
      ensures r.Some? ==> r.value == data[key]
    {
      if key in data then Some(data[key]) else None
    }

    /** `contains`. */
    predicate Contains(key: string)
      reads this
    {
      key in data
    }

    /** `set`: `key` now maps to `value`, overwriting any earlier value; no other key changes. */
    method Set(key: string, value: Value)
      modifies this
      ensures data == old(data)[key := value]
      ensures Get(key) == Some(value)
      ensures forall k :: k != key ==> Get(k) == old(Get(k))
    {
      data := data[key := value];
    }

    /** `remove`: returns the previous value; afterwards the key is absent and no other key changes. */
    method Remove(key: string) returns (previous: Option<Value>)
      modifies this
      ensures previous == old(Get(key))
      ensures data == old(data) - {key}
      ensures !Contains(key)
      ensures forall k :: k != key ==> Get(k) == old(Get(k))
    {
      previous := Get(key);
      data := data - {key};
    }

    /** `get_str`: the text under `key`, or "" when the key is missing or holds another variant. */
    function GetStr(key: string): (r: string)
      reads this
      ensures key in data && data[key].String? ==> r == data[key].s
      ensures !(key in data && data[key].String?) ==> r == ""
    {
      match Get(key)
      case Some(v) => v.AsStr().GetOr("")
      case None => ""
    }

    /** `get_string`: the text form of the value under `key`, "" when the key is missing. */
    function GetString(key: string, text: NumberText): (r: string)
      reads this
      ensures key in data ==> r == data[key].ToStringValue(text)
      ensures key !in data ==> r == ""
    {
      match Get(key)
      case Some(v) => v.ToStringValue(text)
      case None => ""
    }

    /** `get_number`: the number under `key`, parsing a string; nothing for a missing key, `Null` or a flag. */
    function GetNumber(key: string, text: NumberText): (r: Option<real>)
      reads this
      ensures key in data && data[key].Number? ==> r == Some(data[key].n)
      ensures key in data && data[key].String? ==> r == text.parse(data[key].s)
      ensures key !in data || data[key].Null? || data[key].Bool? ==> r == None
    {
      match Get(key)
      case Some(v) => v.TryParseNumber(text)
      case None => None
    }

    /** `get_bool`: the flag under `key`, or false when the key is missing or holds another variant. */
    function GetBool(key: string): (r: bool)
      reads this
      ensures r <==> key in data && data[key] == Bool(true)
    {
      match Get(key)
      case Some(v) => v.AsBool().GetOr(false)
      case None => false
    }

    /** `keys`. */
    function Keys(): (r: set<string>)
      reads this
      ensures forall k :: k in r <==> Contains(k)
    {
      data.Keys
    }

    /** `clear`: no keys remain. */
    method Clear()
      modifies this
      ensures data == map[]
      ensures forall k :: !Contains(k)
    {
      data := map[];
    }
  }
}
