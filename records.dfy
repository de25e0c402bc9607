/** The plain records (Python dicts whose values are strings, lists, dicts or None) that
    nodes and messages are serialised to, and the lookups that read them back. Numbers
    and booleans have no place here: no field of a node or a message holds one. */
module Records {
  import opened Results

  datatype Value =
    | Null
    | Str(s: string)
    | Arr(items: seq<Value>)
    | Obj(fields: map<string, Value>)

  /** Why reading a record back failed: `data[key]` on something that is not a dict
      (TypeError), a missing key (KeyError), a value of the wrong kind where the model
      needs a string or a list, or an unknown message type (ValueError). */
  datatype DecodeError =
    | NotARecord
    | MissingKey(key: string)
    | WrongShape(key: string)
    | BadMessageType(found: Value)

  /** `data[key]`. */
  function Field(data: Value, key: string): (r: Result<Value, DecodeError>)
    ensures r.Ok? <==> data.Obj? && key in data.fields
    ensures r.Ok? ==> r.value == data.fields[key]
    ensures !data.Obj? ==> r == Err(NotARecord)
    ensures data.Obj? && key !in data.fields ==> r == Err(MissingKey(key))
  {
    if !data.Obj? then Err(NotARecord)
    else if key !in data.fields then Err(MissingKey(key))
    else Ok(data.fields[key])
  }

  /** `data[key]` where a string is expected. */
  function StrField(data: Value, key: string): Result<string, DecodeError> {
    var v :- Field(data, key);
    if v.Str? then Ok(v.s) else Err(WrongShape(key))
  }

  /** `data[key]` where a list is expected. */
  function ArrField(data: Value, key: string): Result<seq<Value>, DecodeError> {
    var v :- Field(data, key);
    if v.Arr? then Ok(v.items) else Err(WrongShape(key))
  }

  /** A list of strings as a record value. */
  function Strs(ss: seq<string>): Value {
    Arr(seq(|ss|, i requires 0 <= i < |ss| => Str(ss[i])))
  }

  /** A list whose every element is a string. */
  predicate IsStrs(v: Value) {
    v.Arr? && forall i :: 0 <= i < |v.items| ==> v.items[i].Str?
  }

  /** `data[key]` where a list of strings is expected. */
  function StrsField(data: Value, key: string): (r: Result<seq<string>, DecodeError>)
    ensures r.Ok? <==> data.Obj? && key in data.fields && IsStrs(data.fields[key])
    ensures r.Ok? ==> data.fields[key] == Strs(r.value)
  {
    var items :- ArrField(data, key);
    if forall i :: 0 <= i < |items| ==> items[i].Str? then
      var ss := seq(|items|, i requires 0 <= i < |items| && items[i].Str? => items[i].s);
      assert Strs(ss).items == items;
      Ok(ss)
    else
      Err(WrongShape(key))
  }

  /** Reading back a stored list of strings gives the list. */
  lemma StrsFieldOfStrs(data: Value, key: string, ss: seq<string>)
    requires Field(data, key) == Ok(Strs(ss))
    ensures StrsField(data, key) == Ok(ss)
  {
    var items := Strs(ss).items;
    assert ArrField(data, key) == Ok(items);
    assert forall i :: 0 <= i < |items| ==> items[i] == Str(ss[i]);
    var back := seq(|items|, i requires 0 <= i < |items| && items[i].Str? => items[i].s);
    assert back == ss;
  }
}
