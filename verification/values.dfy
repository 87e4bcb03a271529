/**
 * The decoded JSON values that the RPC layer passes around, and the few
 * Python behaviours on them that trust_sockets/rpc.py and
 * trust_sockets/services.py rely on: `dict.get`, truthiness, `str()`,
 * type names and the messages of the exceptions they raise.
 */
module Values {
  import opened Base

  /** A value as json.loads returns it; an object keeps its keys in
      insertion order, as a Python dict does. */
  datatype Value =
    | Null
    | Bool(b: bool)
    | Int(i: int)
    | Str(s: string)
    | Arr(items: seq<Value>)
    | Obj(entries: seq<(string, Value)>)

  /** A raised Python exception: the name of its class and its str(). */
  datatype Fault = Fault(kind: string, message: string)

  /** What json.loads(data.decode("utf-8")) gives for a payload. */
  datatype Decoded = Decoded(value: Value) | DecodeFailed(fault: Fault)

  /** f"{type(e).__name__}: {e}" (rpc.py:37). */
  function Render(f: Fault): (r: string)
    ensures |r| == |f.kind| + 2 + |f.message|
    ensures r[..|f.kind|] == f.kind && r[|f.kind|..|f.kind| + 2] == ": " && r[|f.kind| + 2..] == f.message
  {
    f.kind + ": " + f.message
  }

  /** type(v).__name__. */
  function TypeName(v: Value): string
  {
    match v
    case Null => "NoneType"
    case Bool(_) => "bool"
    case Int(_) => "int"
    case Str(_) => "str"
    case Arr(_) => "list"
    case Obj(_) => "dict"
  }

  /** bool(v). */
  function Truthy(v: Value): (b: bool)
    // the falsy values are exactly None, False, 0, "", [] and {}
    ensures !b <==> v == Null || v == Bool(false) || v == Int(0) || v == Str("") || v == Arr([]) || v == Obj([])
  {
    match v
    case Null => false
    case Bool(b) => b
    case Int(i) => i != 0
    case Str(s) => s != ""
    case Arr(items) => items != []
    case Obj(entries) => entries != []
  }

  /** Lists and dicts cannot be dictionary keys. */
  predicate Hashable(v: Value)
  {
    !v.Arr? && !v.Obj?
  }

  /** dict.get(key): the value stored under `key`, if any. */
  function Get(entries: seq<(string, Value)>, key: string): Option<Value>
  {
    if entries == [] then None
    else if entries[0].0 == key then Some(entries[0].1)
    else Get(entries[1..], key)
  }

  /** One step of `get`: the first entry, or the rest. */
  lemma GetCons(k: string, v: Value, rest: seq<(string, Value)>, key: string)
    ensures Get([(k, v)] + rest, key) == if k == key then Some(v) else Get(rest, key)
  {
    assert ([(k, v)] + rest)[1..] == rest;
  }

  /** `get` finds a key exactly when the object has it, and then returns the
      value of its first occurrence. */
  lemma {:induction false} GetSpec(entries: seq<(string, Value)>, key: string)
    ensures Get(entries, key).None? <==> forall i :: 0 <= i < |entries| ==> entries[i].0 != key
    ensures Get(entries, key).Some? ==>
              exists i :: 0 <= i < |entries| && entries[i] == (key, Get(entries, key).value) &&
                          forall j :: 0 <= j < i ==> entries[j].0 != key
  {
    if entries != [] && entries[0].0 != key {
      GetSpec(entries[1..], key);
      if Get(entries, key).Some? {
        var i :| 0 <= i < |entries[1..]| && entries[1..][i] == (key, Get(entries, key).value) &&
                 forall j :: 0 <= j < i ==> entries[1..][j].0 != key;
        assert entries[i + 1] == (key, Get(entries, key).value);
        assert forall j :: 0 <= j < i + 1 ==> entries[j].0 != key by {
          forall j | 0 <= j < i + 1
            ensures entries[j].0 != key
          {
            if j > 0 {
              assert entries[j] == entries[1..][j - 1];
            }
          }
        }
      }
    } else if entries != [] {
      assert entries[0] == (key, Get(entries, key).value);
    }
  }

  /** Adding a key the object lacks makes `get` find it there and changes
      nothing else. */
  lemma {:induction false} GetAppend(entries: seq<(string, Value)>, key: string, v: Value, other: string)
    requires Get(entries, key).None?
    ensures Get(entries + [(key, v)], key) == Some(v)
    ensures other != key ==> Get(entries + [(key, v)], other) == Get(entries, other)
  {
    if entries == [] {
      assert entries + [(key, v)] == [(key, v)];
    } else {
      assert (entries + [(key, v)])[1..] == entries[1..] + [(key, v)];
      GetAppend(entries[1..], key, v, other);
    }
  }

  /** Replacing the value of one entry changes no lookup of another key,
      and a lookup of that key, when no earlier entry has it, finds the
      new value. */
  lemma {:induction false} GetReplace(pre: seq<(string, Value)>, key: string, a: Value, b: Value,
                                      post: seq<(string, Value)>, other: string)
    requires Get(pre, key).None?
    ensures Get(pre + [(key, a)] + post, key) == Some(a)
    ensures other != key ==> Get(pre + [(key, a)] + post, other) == Get(pre + [(key, b)] + post, other)
  {
    if pre == [] {
      assert [] + [(key, a)] + post == [(key, a)] + post;
      assert [] + [(key, b)] + post == [(key, b)] + post;
      GetCons(key, a, post, key);
      GetCons(key, a, post, other);
      GetCons(key, b, post, other);
    } else {
      assert pre + [(key, a)] + post == [pre[0]] + (pre[1..] + [(key, a)] + post);
      assert pre + [(key, b)] + post == [pre[0]] + (pre[1..] + [(key, b)] + post);
      GetCons(pre[0].0, pre[0].1, pre[1..] + [(key, a)] + post, key);
      GetCons(pre[0].0, pre[0].1, pre[1..] + [(key, a)] + post, other);
      GetCons(pre[0].0, pre[0].1, pre[1..] + [(key, b)] + post, other);
      assert pre == [pre[0]] + pre[1..];
      GetCons(pre[0].0, pre[0].1, pre[1..], key);
      GetReplace(pre[1..], key, a, b, post, other);
    }
  }

  /** `v.get(...)` on a value that is not a dict. */
  function NoAttribute(v: Value, attribute: string): Fault
  {
    Fault("AttributeError", "'" + TypeName(v) + "' object has no attribute '" + attribute + "'")
  }

  /** The message of the AttributeError for `.get`, written out. */
  lemma NoAttributeGet(v: Value)
    ensures NoAttribute(v, "get") == Fault("AttributeError", "'" + TypeName(v) + "' object has no attribute 'get'")
  {
    var t := TypeName(v);
    AppendAssoc("'" + t + "' object has no attribute '", "get", "'");
  }

  /** `v in some_dict` on a list or a dict. */
  function Unhashable(v: Value): Fault
  {
    Fault("TypeError", "unhashable type: '" + TypeName(v) + "'")
  }

  function DigitChar(d: nat): (c: char)
    requires d < 10
    ensures '0' <= c <= '9'
  {
    ('0' as int + d) as char
  }

  /** str(n) for a natural number: decimal digits without leading zeros. */
  function NatToString(n: nat): (s: string)
    ensures |s| >= 1
    ensures forall i :: 0 <= i < |s| ==> '0' <= s[i] <= '9'
    ensures (s[0] == '0') <==> n == 0
  {
    if n < 10 then [DigitChar(n)]
    else NatToString(n / 10) + [DigitChar(n % 10)]
  }

  /** The number a string of decimal digits denotes. */
  function DecimalValue(s: string): nat
    requires forall i :: 0 <= i < |s| ==> '0' <= s[i] <= '9'
  {
    if s == [] then 0
    else DecimalValue(s[..|s| - 1]) * 10 + (s[|s| - 1] as int - '0' as int)
  }

  /** Reading back what NatToString writes gives the number again. */
  lemma {:induction false} DecimalValueOfNatToString(n: nat)
    ensures DecimalValue(NatToString(n)) == n
  {
    var s := NatToString(n);
    if n >= 10 {
      DecimalValueOfNatToString(n / 10);
      assert s[..|s| - 1] == NatToString(n / 10);
    }
  }

  /** str(i) for an integer. */
  function IntToString(i: int): (r: string)
    // a minus sign exactly for a negative number, then the digits of its magnitude
    ensures |r| >= 1 && (r[0] == '-' <==> i < 0)
    ensures r[(if i < 0 then 1 else 0)..] == NatToString(if i < 0 then -i else i)
  {
    if i < 0 then "-" + NatToString(-i) else NatToString(i)
  }

  /** str(v) of a JSON scalar, as an f-string renders it. */
  function PyStr(v: Value): string
    requires Hashable(v)
  {
    match v
    case Null => "None"
    case Bool(b) => if b then "True" else "False"
    case Int(i) => IntToString(i)
    case Str(s) => s
  }
}
