/** The conventional optional value. */
module Wrappers {
  datatype Option<+T> = None | Some(value: T)
}

/**
 * The decoded JSON payloads the dashboard handles, and the two pieces of
 * JavaScript semantics the code relies on when it reads them: property access
 * (`data.uptime.days`) and the text a value becomes inside a template literal.
 * JSON arrays are represented as objects whose keys are the indices.
 */
module Json {
  import opened Wrappers

  /** A leaf holds the text the value displays as (strings, numbers and
      booleans alike); `null` is kept apart because `typeof null` is "object". */
  datatype Value = Leaf(text: string) | Null | Obj(fields: seq<(string, Value)>)

  /** Outcome of a JavaScript property read. */
  datatype Access = Thrown | Undefined | Found(v: Value)

  /**
   * What `JSON.parse` hands to the code: no object holds a key twice, at any
   * depth (of a key repeated in the text, only one entry survives).
   */
  predicate Parsed(v: Value)
    decreases v
  {
    match v
    case Obj(fields) =>
      (forall i, j :: 0 <= i < j < |fields| ==> fields[i].0 != fields[j].0) &&
      (forall i :: 0 <= i < |fields| ==> Parsed(fields[i].1))
    case _ => true
  }

  /** The value stored under `key` among `fields`; of entries sharing a key,
      the last is the one seen, as `JSON.parse` resolves a key repeated in the text. */
  function Lookup(fields: seq<(string, Value)>, key: string): Option<Value>
  {
    if fields == [] then None
    else if fields[|fields| - 1].0 == key then Some(fields[|fields| - 1].1)
    else Lookup(fields[..|fields| - 1], key)
  }

  /** A key is found iff some entry has it, and what is found is the value of its last entry. */
  lemma {:induction false} LookupLastWins(fields: seq<(string, Value)>, key: string)
    ensures Lookup(fields, key).Some? <==> exists i :: 0 <= i < |fields| && fields[i].0 == key
    ensures Lookup(fields, key).Some? ==>
      exists i :: 0 <= i < |fields| && fields[i] == (key, Lookup(fields, key).value) &&
        forall j :: i < j < |fields| ==> fields[j].0 != key
  {
    if fields != [] {
      var n := |fields| - 1;
      var prefix := fields[..n];
      if fields[n].0 == key {
        assert fields[n] == (key, Lookup(fields, key).value);
      } else {
        LookupLastWins(prefix, key);
        assert Lookup(fields, key) == Lookup(prefix, key);
        if Lookup(prefix, key).Some? {
          var i :| 0 <= i < n && prefix[i] == (key, Lookup(prefix, key).value) &&
                   forall j :: i < j < n ==> prefix[j].0 != key;
          assert fields[i] == prefix[i];
          assert forall j :: i < j < |fields| ==> fields[j].0 != key by {
            assert forall j :: i < j < n ==> fields[j] == prefix[j];
          }
        } else {
          assert forall i :: 0 <= i < n ==> fields[i] == prefix[i];
        }
      }
    }
  }

  /** A key held by exactly one entry finds that entry's value. */
  lemma LookupUnique(fields: seq<(string, Value)>, i: nat, key: string)
    requires i < |fields| && fields[i].0 == key
    requires forall j :: 0 <= j < |fields| && j != i ==> fields[j].0 != key
    ensures Lookup(fields, key) == Some(fields[i].1)
  {
    LookupLastWins(fields, key);
  }

  /** In a parsed object every entry is what a property read of its key yields. */
  lemma ParsedEntryIsRead(fields: seq<(string, Value)>, i: nat)
    requires Parsed(Obj(fields)) && i < |fields|
    ensures Member(Obj(fields), fields[i].0) == Found(fields[i].1)
  {
    forall j | 0 <= j < |fields| && j != i
      ensures fields[j].0 != fields[i].0
    {
      if j < i { assert fields[j].0 != fields[i].0; } else { assert fields[i].0 != fields[j].0; }
    }
    LookupUnique(fields, i, fields[i].0);
  }

  /** `v.key`: reading a property of `null` throws, of a primitive gives `undefined`. */
  function Member(v: Value, key: string): (r: Access)
    ensures r.Thrown? <==> v.Null?
    ensures r.Found? <==> v.Obj? && Lookup(v.fields, key).Some?
  {
    match v
    case Null => Thrown
    case Leaf(_) => Undefined
    case Obj(fields) =>
      match Lookup(fields, key)
      case Some(x) => Found(x)
      case None => Undefined
  }

  /** `a.key` for the result `a` of an earlier read: `undefined.key` throws too. */
  function MemberOf(a: Access, key: string): (r: Access)
    ensures r.Thrown? <==> a.Thrown? || a.Undefined? || a == Found(Null)
  {
    match a
    case Thrown => Thrown
    case Undefined => Thrown
    case Found(v) => Member(v, key)
  }

  /** The text `${x}` produces for a value that was read successfully. */
  function Render(a: Access): string
    requires !a.Thrown?
  {
    match a
    case Undefined => "undefined"
    case Found(Leaf(t)) => t
    case Found(Null) => "null"
    case Found(Obj(_)) => "[object Object]"
  }
}
