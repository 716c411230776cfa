/** The Python values the client passes around: arguments, JSON request bodies and
    node responses. A dict is kept as its list of entries in insertion order, as
    Python keeps it, so that `json.dumps` and `urlencode` see the same order. */
module Values {
  import opened Optional
  import opened Text
  import opened Exceptions

  newtype byte = b: int | 0 <= b < 256

  datatype Value =
    | Null
    | Bool(b: bool)
    | Int(i: int)
    | Str(s: string)
    | Bytes(data: seq<byte>)
    | List(items: seq<Value>)
    | Dict(fields: seq<(string, Value)>)

  /** Python's truth value: None, False, 0 and empty containers are false. */
  predicate Truthy(v: Value)
  {
    match v
    case Null => false
    case Bool(b) => b
    case Int(i) => i != 0
    case Str(s) => s != ""
    case Bytes(d) => d != []
    case List(items) => items != []
    case Dict(fields) => fields != []
  }

  /** Whether Python can evaluate `x < y` at all: numbers (bools among them) with
      numbers, text with text, lists with lists; any other pair raises TypeError. */
  predicate Orderable(x: Value, y: Value)
  {
    || ((x.Int? || x.Bool?) && (y.Int? || y.Bool?))
    || (x.Str? && y.Str?)
    || (x.List? && y.List?)
  }

  /** `a or b`: the first operand when it is true, else the second. */
  function Or(a: Value, b: Value): (r: Value)
    ensures Truthy(a) ==> r == a
    ensures !Truthy(a) ==> r == b
  {
    if Truthy(a) then a else b
  }

  function OptStr(s: Option<string>): Value
  {
    if s.Some? then Str(s.value) else Null
  }

  /** A text argument that may be None: false when None or empty. */
  predicate TruthyStr(s: Option<string>) { s.Some? && s.value != "" }

  /* ------------------------------------------------------------- entries */

  function Keys(fields: seq<(string, Value)>): (r: seq<string>)
    ensures |r| == |fields|
    ensures forall i :: 0 <= i < |fields| ==> r[i] == fields[i].0
  {
    if fields == [] then [] else [fields[0].0] + Keys(fields[1..])
  }

  /** The value stored under `k`, if any. */
  function Find(fields: seq<(string, Value)>, k: string): (r: Option<Value>)
    ensures r.Some? <==> k in Keys(fields)
  {
    if fields == [] then None
    else if fields[0].0 == k then Some(fields[0].1)
    else Find(fields[1..], k)
  }

  /** No key occurs twice, as in any dict. */
  predicate DistinctKeys(fields: seq<(string, Value)>)
  {
    forall i, j :: 0 <= i < j < |fields| ==> fields[i].0 != fields[j].0
  }

  /** In a dict every entry is what its key looks up. */
  lemma {:induction false} FindEntry(fields: seq<(string, Value)>, i: nat)
    requires DistinctKeys(fields) && i < |fields|
    ensures Find(fields, fields[i].0) == Some(fields[i].1)
  {
    if i > 0 {
      assert fields[0].0 != fields[i].0;
      assert fields[1..][i - 1] == fields[i];
      FindEntry(fields[1..], i - 1);
    }
  }

  /** `d[k] = x`: replaces the entry of an existing key where it stands, or appends
      a new entry at the end. */
  function Put(fields: seq<(string, Value)>, k: string, x: Value): (r: seq<(string, Value)>)
    ensures Keys(r) == if k in Keys(fields) then Keys(fields) else Keys(fields) + [k]
    ensures Find(r, k) == Some(x)
    ensures forall k' :: k' != k ==> Find(r, k') == Find(fields, k')
  {
    if fields == [] then [(k, x)]
    else if fields[0].0 == k then [(k, x)] + fields[1..]
    else [fields[0]] + Put(fields[1..], k, x)
  }

  /** Storing under a new key appends the entry. */
  lemma {:induction false} PutNew(fields: seq<(string, Value)>, k: string, x: Value)
    requires k !in Keys(fields)
    ensures Put(fields, k, x) == fields + [(k, x)]
  {
    if fields != [] {
      assert fields[0].0 != k by { assert Keys(fields)[0] == fields[0].0; }
      assert k !in Keys(fields[1..]) by {
        forall i | 0 <= i < |fields| - 1 ensures Keys(fields[1..])[i] != k {
          assert Keys(fields[1..])[i] == Keys(fields)[i + 1];
        }
      }
      PutNew(fields[1..], k, x);
      assert [fields[0]] + (fields[1..] + [(k, x)]) == fields + [(k, x)];
    }
  }

  /** `d[k] = x` for each entry of `entries`, in order. */
  function PutAll(fields: seq<(string, Value)>, entries: seq<(string, Value)>): seq<(string, Value)>
    decreases |entries|
  {
    if entries == [] then fields
    else PutAll(Put(fields, entries[0].0, entries[0].1), entries[1..])
  }

  /** After a run of assignments the keys are the old keys and the assigned ones;
      an assigned key looks up the value of the last assignment to it, any other
      key what it looked up before. */
  lemma {:induction false} PutAllFind(fields: seq<(string, Value)>, entries: seq<(string, Value)>, k: string)
    decreases |entries|
    ensures k in Keys(PutAll(fields, entries)) <==> k in Keys(fields) || k in Keys(entries)
    ensures k !in Keys(entries) ==> Find(PutAll(fields, entries), k) == Find(fields, k)
    ensures forall i :: 0 <= i < |entries| && entries[i].0 == k && k !in Keys(entries[i + 1..]) ==>
      Find(PutAll(fields, entries), k) == Some(entries[i].1)
  {
    if entries != [] {
      var e := entries[0];
      var rest := entries[1..];
      var put := Put(fields, e.0, e.1);
      PutAllFind(put, rest, k);
      assert Keys(entries) == [e.0] + Keys(rest);
      assert k in Keys(put) <==> k in Keys(fields) || k == e.0;
      forall i | 0 <= i < |entries| && entries[i].0 == k && k !in Keys(entries[i + 1..])
        ensures Find(PutAll(fields, entries), k) == Some(entries[i].1)
      {
        if i == 0 {
          assert entries[1..] == rest;
        } else {
          assert rest[i - 1] == entries[i] && rest[i..] == entries[i + 1..];
        }
      }
    }
  }

  /** Appending an entry under a new key leaves every earlier lookup as it was. */
  lemma {:induction false} FindSnoc(fields: seq<(string, Value)>, k: string, x: Value, k2: string)
    requires k !in Keys(fields)
    ensures Find(fields + [(k, x)], k2) == if k2 == k then Some(x) else Find(fields, k2)
  {
    if fields != [] {
      assert Keys(fields)[0] == fields[0].0;
      assert forall i :: 0 <= i < |fields| - 1 ==> Keys(fields[1..])[i] == Keys(fields)[i + 1];
      assert (fields + [(k, x)])[1..] == fields[1..] + [(k, x)];
      FindSnoc(fields[1..], k, x, k2);
    }
  }

  /** Deleting the key of the last entry, when no earlier entry has it, drops that entry. */
  lemma {:induction false} RemoveSnoc(fields: seq<(string, Value)>, k: string, x: Value)
    requires k !in Keys(fields)
    ensures Remove(fields + [(k, x)], k) == fields
  {
    if fields != [] {
      assert Keys(fields)[0] == fields[0].0;
      assert forall i :: 0 <= i < |fields| - 1 ==> Keys(fields[1..])[i] == Keys(fields)[i + 1];
      assert (fields + [(k, x)])[1..] == fields[1..] + [(k, x)];
      RemoveSnoc(fields[1..], k, x);
      assert [fields[0]] + fields[1..] == fields;
    } else {
      assert [(k, x)][1..] == [];
    }
  }

  /** A two-entry dict literal looks up both its entries. */
  lemma FindTwo(a: string, x: Value, b: string, y: Value)
    requires a != b
    ensures Find([(a, x), (b, y)], a) == Some(x) && Find([(a, x), (b, y)], b) == Some(y)
  {
    assert [(a, x), (b, y)][1..] == [(b, y)];
  }

  /** `d.get(k, default)` on a dict. */
  function GetOr(fields: seq<(string, Value)>, k: string, default: Value): (r: Value)
    ensures k !in Keys(fields) ==> r == default
    ensures k in Keys(fields) ==> Some(r) == Find(fields, k)
  {
    var found := Find(fields, k);
    if found.Some? then found.value else default
  }

  /** `del d[k]` for a dict whose keys are distinct: the entry goes, the rest keep
      their order. */
  function Remove(fields: seq<(string, Value)>, k: string): (r: seq<(string, Value)>)
    ensures k !in Keys(r)
    ensures forall k' :: k' != k ==> Find(r, k') == Find(fields, k')
    ensures forall k' :: k' in Keys(r) <==> k' in Keys(fields) && k' != k
  {
    if fields == [] then []
    else if fields[0].0 == k then Remove(fields[1..], k)
    else [fields[0]] + Remove(fields[1..], k)
  }

  /** `d.get(k, default)`; anything but a dict has no `get` (AttributeError). */
  function Get(v: Value, k: string, default: Value): (r: Result<Value>)
    ensures r.Ok? <==> v.Dict?
    ensures v.Dict? && k !in Keys(v.fields) ==> r == Ok(default)
    ensures v.Dict? && Find(v.fields, k).Some? ==> r == Ok(Find(v.fields, k).value)
  {
    if v.Dict? then
      var found := Find(v.fields, k);
      Ok(if found.Some? then found.value else default)
    else Err(Unexpected("object has no attribute 'get'"))
  }

  /** `d[k]`: a KeyError for a missing key, a TypeError for anything but a dict. */
  function Index(v: Value, k: string): (r: Result<Value>)
    ensures r.Ok? <==> v.Dict? && k in Keys(v.fields)
    ensures r.Ok? ==> Find(v.fields, k) == Some(r.value)
  {
    if v.Dict? then
      var found := Find(v.fields, k);
      if found.Some? then Ok(found.value) else Err(Unexpected("KeyError: " + k))
    else Err(Unexpected("object is not subscriptable by a string"))
  }

  /** What `for x in v` walks through: a list's items, a dict's keys, a string's
      characters, a bytes object's integers; anything else is not iterable. */
  function Iterate(v: Value): (r: Result<seq<Value>>)
    ensures v.List? ==> r == Ok(v.items)
    ensures v.Null? || v.Bool? || v.Int? ==> r.Err?
  {
    match v
    case List(items) => Ok(items)
    case Dict(fields) => Ok(seq(|fields|, i requires 0 <= i < |fields| => Str(fields[i].0)))
    case Str(s) => Ok(seq(|s|, i requires 0 <= i < |s| => Str([s[i]])))
    case Bytes(d) => Ok(seq(|d|, i requires 0 <= i < |d| => Int(d[i] as int)))
    case _ => Err(Unexpected("object is not iterable"))
  }

  /* ---------------------------------------------------------- json.dumps */

  function HexDigit(d: nat): char
    requires d < 16
  {
    if d < 10 then ('0' as int + d) as char else ('a' as int + d - 10) as char
  }

  /** Four lower-case hex digits, as in `'\\u{0:04x}'`. */
  function Hex4(n: nat): (r: string)
    requires n < 0x1_0000
    ensures |r| == 4
  {
    [HexDigit(n / 0x1000), HexDigit(n / 0x100 % 16), HexDigit(n / 0x10 % 16), HexDigit(n % 16)]
  }

  /** How `json.dumps` (ensure_ascii on) writes one character of a string. */
  function EscapeChar(c: char): string
  {
    if c == '"' then "\\\""
    else if c == '\\' then "\\\\"
    else if c == '\n' then "\\n"
    else if c == '\r' then "\\r"
    else if c == '\t' then "\\t"
    else if c == 8 as char then "\\b"
    else if c == 12 as char then "\\f"
    else if ' ' <= c <= '~' then [c]
    else if (c as int) < 0x1_0000 then "\\u" + Hex4(c as int)
    else
      var n := c as int - 0x1_0000;
      "\\u" + Hex4(0xd800 + n / 0x400) + "\\u" + Hex4(0xdc00 + n % 0x400)
  }

  function EscapeString(s: string): string
  {
    if s == [] then "" else EscapeChar(s[0]) + EscapeString(s[1..])
  }

  function Quote(s: string): string
  {
    "\"" + EscapeString(s) + "\""
  }

  /** `json.dumps(v)` with its default separators; bytes are not serialisable. */
  function Dumps(v: Value): (r: Result<string>)
    ensures v.Bytes? ==> r.Err?
    ensures r.Ok? ==> |r.value| > 0
    ensures r.Ok? ==> (r.value[0] == '"' <==> v.Str?) && (r.value[0] == '[' <==> v.List?) && (r.value[0] == '{' <==> v.Dict?)
    decreases v, 1
  {
    match v
    case Null => Ok("null")
    case Bool(b) => Ok(if b then "true" else "false")
    case Int(i) => Ok(IntToString(i))
    case Str(s) => Ok(Quote(s))
    case Bytes(_) => Err(Unexpected("Object of type bytes is not JSON serializable"))
    case List(items) =>
      var parts :- DumpsItems(items);
      Ok("[" + JoinWith(parts, ", ") + "]")
    case Dict(fields) =>
      var parts :- DumpsFields(v, fields);
      Ok("{" + JoinWith(parts, ", ") + "}")
  }

  function DumpsItems(items: seq<Value>): (r: Result<seq<string>>)
    decreases items, 0
  {
    if items == [] then Ok([])
    else
      var first :- Dumps(items[0]);
      var rest :- DumpsItems(items[1..]);
      Ok([first] + rest)
  }

  function DumpsFields(parent: Value, fields: seq<(string, Value)>): (r: Result<seq<string>>)
    requires parent.Dict? && forall i :: 0 <= i < |fields| ==> fields[i] in parent.fields
    decreases parent, 0, |fields|
  {
    if fields == [] then Ok([])
    else
      assert fields[0] in parent.fields;
      var first :- Dumps(fields[0].1);
      var rest :- DumpsFields(parent, fields[1..]);
      Ok([Quote(fields[0].0) + ": " + first] + rest)
  }

  function JoinWith(parts: seq<string>, sep: string): string
  {
    if parts == [] then ""
    else if |parts| == 1 then parts[0]
    else parts[0] + sep + JoinWith(parts[1..], sep)
  }

  /** A list of strings as a value. */
  function StrList(ss: seq<string>): (r: Value)
    ensures r.List? && |r.items| == |ss| && forall i :: 0 <= i < |ss| ==> r.items[i] == Str(ss[i])
  {
    List(seq(|ss|, i requires 0 <= i < |ss| => Str(ss[i])))
  }

  /** Every string serialises, as its quoted text. */
  lemma {:induction false} DumpsStrings(ss: seq<string>)
    ensures DumpsItems(StrList(ss).items) == Ok(seq(|ss|, i requires 0 <= i < |ss| => Quote(ss[i])))
  {
    var items := StrList(ss).items;
    var quoted := seq(|ss|, i requires 0 <= i < |ss| => Quote(ss[i]));
    if ss == [] {
      assert items == [] && quoted == [];
    } else {
      var tail := ss[1..];
      DumpsStrings(tail);
      assert items[1..] == StrList(tail).items;
      var rest := seq(|tail|, i requires 0 <= i < |tail| => Quote(tail[i]));
      assert Dumps(items[0]) == Ok(Quote(ss[0]));
      assert DumpsItems(items) == Ok([Quote(ss[0])] + rest);
      assert [Quote(ss[0])] + rest == quoted;
    }
  }

  /** A dict of two string entries serialises. */
  lemma DumpsStrPair(k1: string, s1: string, k2: string, s2: string)
    ensures Dumps(Dict([(k1, Str(s1)), (k2, Str(s2))])).Ok?
  {
    var v := Dict([(k1, Str(s1)), (k2, Str(s2))]);
    assert v.fields[1..][1..] == [];
    assert DumpsFields(v, v.fields[1..][1..]) == Ok([]);
    assert Dumps(Str(s2)).Ok?;
    assert DumpsFields(v, v.fields[1..]).Ok?;
    assert Dumps(Str(s1)).Ok?;
    assert DumpsFields(v, v.fields).Ok?;
  }

  /** A dict of two strings and then a list of strings serialises. */
  lemma DumpsStrStrList(k1: string, s1: string, k2: string, s2: string, k3: string, ss: seq<string>)
    ensures Dumps(Dict([(k1, Str(s1)), (k2, Str(s2)), (k3, StrList(ss))])).Ok?
  {
    var v := Dict([(k1, Str(s1)), (k2, Str(s2)), (k3, StrList(ss))]);
    DumpsStrings(ss);
    assert Dumps(StrList(ss)).Ok?;
    assert v.fields[1..][1..][1..] == [];
    assert DumpsFields(v, v.fields[1..][1..][1..]) == Ok([]);
    assert DumpsFields(v, v.fields[1..][1..]).Ok?;
    assert Dumps(Str(s2)).Ok?;
    assert DumpsFields(v, v.fields[1..]).Ok?;
    assert Dumps(Str(s1)).Ok?;
    assert DumpsFields(v, v.fields).Ok?;
  }
}
