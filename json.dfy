/** The optional result of parsing a frame. */
module Wrappers {

  datatype Option<+T> = None | Some(value: T)
}

/** JSON values as the relay sees them after `JSON.parse`, and the two control
    notices the server itself composes. `JSON.stringify` is not modelled as
    text: a message placed on the wire is the value it serialises. */
module Json {

  import opened Wrappers

  datatype Value =
    | Null
    | Bool(b: bool)
    | Num(n: int)
    | Str(s: string)
    | Arr(items: seq<Value>)
    | Obj(fields: seq<(string, Value)>)

  /** The member named `key` among `fields`; when a name repeats, the last one wins,
      as it does for `JSON.parse`. */
  function Lookup(fields: seq<(string, Value)>, key: string): (r: Option<Value>)
    ensures r.Some? ==> exists i :: 0 <= i < |fields| && fields[i] == (key, r.value)
                                 && forall j :: i < j < |fields| ==> fields[j].0 != key
    ensures r.None? <==> forall i :: 0 <= i < |fields| ==> fields[i].0 != key
  {
    if fields == [] then None
    else
      var n := |fields| - 1;
      if fields[n].0 == key then
        assert fields[n] == (key, fields[n].1);
        Some(fields[n].1)
      else
        var init := fields[..n];
        assert forall i :: 0 <= i < n ==> init[i] == fields[i];
        Lookup(init, key)
  }

  /** An own member of a parsed object, as `v.type` or `v.clientCount` reads
      it; `None` stands for `undefined`. Strings, numbers, booleans and arrays
      have no such member. `null` has no properties at all, so for it the
      access is not defined (it throws). */
  function Member(v: Value, key: string): (r: Option<Value>)
    requires !v.Null?
    ensures r.Some? ==> v.Obj?
  {
    if v.Obj? then Lookup(v.fields, key) else None
  }

  /** Whether converting `v` to a string, as a template literal does, throws.
      An object whose own `toString` came from the JSON text has a
      non-callable `toString`; the conversion then falls back to the inherited
      `valueOf`, which returns the object itself, not a primitive, and a
      TypeError follows. An array converts through `join`, which converts each
      element in turn. Every other value converts without throwing, as long
      as the result stays within the engine's size limits. */
  predicate StringConversionThrows(v: Value)
  {
    match v
    case Obj(fields) => Lookup(fields, "toString").Some?
    case Arr(items) => exists i :: 0 <= i < |items| && StringConversionThrows(items[i])
    case _ => false
  }

  /** `{ type: 'connected', clientCount: count }`, sent to a connection when it is accepted. */
  function ConnectedNotice(count: nat): (v: Value)
  {
    Obj([("type", Str("connected")), ("clientCount", Num(count))])
  }

  /** `{ type: 'peer-disconnected' }`, sent to the remaining clients when one closes. */
  function PeerDisconnectedNotice(): (v: Value)
  {
    Obj([("type", Str("peer-disconnected"))])
  }

  /** What a client reads from the two notices: `msg.type`, and the count in
      the greeting only. */
  lemma NoticeFields(count: nat)
    ensures Member(ConnectedNotice(count), "type") == Some(Str("connected"))
    ensures Member(ConnectedNotice(count), "clientCount") == Some(Num(count))
    ensures Member(PeerDisconnectedNotice(), "type") == Some(Str("peer-disconnected"))
    ensures Member(PeerDisconnectedNotice(), "clientCount") == None
  {
    var fields := ConnectedNotice(count).fields;
    assert |fields[1].0| != |"type"|;
    assert fields[..1] == [("type", Str("connected"))];
    assert Lookup(fields, "type") == Lookup(fields[..1], "type");
  }
}
