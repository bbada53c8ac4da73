/**
  JSON-like values as the Python code handles them: `dict`s keep their keys
  in insertion order, so an object is an ordered list of fields with distinct
  keys. Floats are not part of the model.
 */
module Json {
  import opened Wrappers
  import PyStr

  datatype Json =
    | JNull
    | JBool(b: bool)
    | JInt(i: int)
    | JStr(s: string)
    | JList(items: seq<Json>)
    | JObject(fields: seq<Field>)

  datatype Field = Field(key: string, value: Json)

  /** Python truthiness: None, False, 0, "", [] and {} are false. */
  predicate Truthy(j: Json) {
    match j
    case JNull => false
    case JBool(b) => b
    case JInt(i) => i != 0
    case JStr(s) => s != ""
    case JList(items) => items != []
    case JObject(fields) => fields != []
  }

  // ---------------------------------------------------------------- dict operations

  function Keys(fs: seq<Field>): (ks: seq<string>)
    ensures |ks| == |fs| && forall i :: 0 <= i < |fs| ==> ks[i] == fs[i].key
  {
    seq(|fs|, i requires 0 <= i < |fs| => fs[i].key)
  }

  predicate HasKey(fs: seq<Field>, k: string) {
    k in Keys(fs)
  }

  /** Every key occurs once, as in a Python dict. */
  predicate UniqueKeys(fs: seq<Field>) {
    forall i, j :: 0 <= i < j < |fs| ==> fs[i].key != fs[j].key
  }

  /** `d.get(k)`: the value stored under `k`, if any. */
  function Get(fs: seq<Field>, k: string): (r: Option<Json>)
    ensures r.Some? <==> HasKey(fs, k)
    ensures r.Some? ==> Field(k, r.value) in fs
  {
    if fs == [] then None
    else if fs[0].key == k then Some(fs[0].value)
    else Get(fs[1..], k)
  }

  /** `d.get(k, default)`. */
  function GetOr(fs: seq<Field>, k: string, default: Json): Json {
    Get(fs, k).GetOr(default)
  }

  /** `d[k] = v`: overwrites in place when `k` is present, else appends at the end. */
  function Set(fs: seq<Field>, k: string, v: Json): (r: seq<Field>)
    ensures HasKey(fs, k) ==> |r| == |fs|
    ensures !HasKey(fs, k) ==> r == fs + [Field(k, v)]
    ensures Keys(r) == if HasKey(fs, k) then Keys(fs) else Keys(fs) + [k]
  {
    if fs == [] then [Field(k, v)]
    else if fs[0].key == k then [Field(k, v)] + fs[1..]
    else [fs[0]] + Set(fs[1..], k, v)
  }

  lemma {:induction false} GetSet(fs: seq<Field>, k: string, v: Json, k': string)
    ensures Get(Set(fs, k, v), k') == if k' == k then Some(v) else Get(fs, k')
  {
    if fs != [] && fs[0].key != k {
      GetSet(fs[1..], k, v, k');
      assert Set(fs, k, v)[1..] == Set(fs[1..], k, v);
    }
  }

  lemma {:induction false} SetKeepsUnique(fs: seq<Field>, k: string, v: Json)
    requires UniqueKeys(fs)
    ensures UniqueKeys(Set(fs, k, v))
  {
    var r := Set(fs, k, v);
    forall i, j | 0 <= i < j < |r| ensures r[i].key != r[j].key {
      assert Keys(r)[i] == r[i].key && Keys(r)[j] == r[j].key;
    }
  }

  /** `d.pop(k, default)`: the value (or the default) and the dict without `k`. */
  function Pop(fs: seq<Field>, k: string, default: Json): (r: (Json, seq<Field>))
    ensures !HasKey(r.1, k)
    ensures r.0 == GetOr(fs, k, default)
    ensures forall k' :: k' != k ==> Get(r.1, k') == Get(fs, k')
  {
    if fs == [] then (default, [])
    else if fs[0].key == k then
      var rest := Pop(fs[1..], k, default);
      (fs[0].value, rest.1)
    else
      var rest := Pop(fs[1..], k, default);
      (rest.0, [fs[0]] + rest.1)
  }

  /** `d.update(patch)`: each patch entry in order, as `d[k] = v`. */
  function Update(fs: seq<Field>, patch: seq<Field>): (r: seq<Field>)
    decreases |patch|
  {
    if patch == [] then fs
    else Update(Set(fs, patch[0].key, patch[0].value), patch[1..])
  }

  lemma {:induction false} GetUpdate(fs: seq<Field>, patch: seq<Field>, k: string)
    requires UniqueKeys(patch)
    ensures Get(Update(fs, patch), k) == if HasKey(patch, k) then Get(patch, k) else Get(fs, k)
    decreases |patch|
  {
    if patch != [] {
      var rest := patch[1..];
      var fs' := Set(fs, patch[0].key, patch[0].value);
      assert Update(fs, patch) == Update(fs', rest);
      assert UniqueKeys(rest);
      GetUpdate(fs', rest, k);
      GetSet(fs, patch[0].key, patch[0].value, k);
      HasKeyCons(patch, k);
    }
  }

  lemma HasKeyCons(fs: seq<Field>, k: string)
    requires fs != []
    ensures HasKey(fs, k) <==> fs[0].key == k || HasKey(fs[1..], k)
  {
    assert Keys(fs) == [fs[0].key] + Keys(fs[1..]);
  }

  // ---------------------------------------------------------------- rendering

  /** A printable ASCII character, the only kind `json.dumps` writes with its default `ensure_ascii`. */
  predicate Printable(c: char) {
    ' ' <= c <= '~'
  }

  /** A character `json.dumps` copies unchanged into a string literal. */
  predicate Verbatim(c: char) {
    Printable(c) && c != '"' && c != '\\'
  }

  function HexDigit(d: nat): (c: char)
    requires d < 16
    ensures Printable(c)
  {
    if d < 10 then ('0' as int + d) as char else ('a' as int + d - 10) as char
  }

  /** `'\\u{0:04x}'.format(n)`. */
  function UnicodeEscape(n: nat): (r: string)
    requires n < 0x1_0000
    ensures |r| == 6 && forall i :: 0 <= i < |r| ==> Printable(r[i])
  {
    "\\u" + [HexDigit(n / 0x1000), HexDigit(n / 0x100 % 16), HexDigit(n / 0x10 % 16), HexDigit(n % 16)]
  }

  /**
    One character of a string literal as `json.dumps` writes it with
    `ensure_ascii`: the short escapes for `"`, `\\`, backspace, form feed,
    newline, carriage return and tab; any other character outside space to `~`
    as `\\uXXXX`, or as a surrogate pair above U+FFFF.
   */
  function EscapeChar(c: char): (r: string)
    ensures |r| >= 1 && forall i :: 0 <= i < |r| ==> Printable(r[i])
    ensures r == [c] <==> Verbatim(c)
  {
    if c == '"' then "\\\""
    else if c == '\\' then "\\\\"
    else if c == '\n' then "\\n"
    else if c == '\r' then "\\r"
    else if c == '\t' then "\\t"
    else if c as int == 8 then "\\b"
    else if c as int == 12 then "\\f"
    else if Printable(c) then [c]
    else if c as int < 0x1_0000 then UnicodeEscape(c as int)
    else
      var n := c as int - 0x1_0000;
      UnicodeEscape(0xD800 + n / 0x400) + UnicodeEscape(0xDC00 + n % 0x400)
  }

  /** The body of a JSON string literal. */
  function Escape(s: string): (r: string)
    ensures |r| >= |s| && forall i :: 0 <= i < |r| ==> Printable(r[i])
  {
    if s == [] then [] else EscapeChar(s[0]) + Escape(s[1..])
  }

  /** A string of verbatim characters is written as it is. */
  lemma {:induction false} EscapeVerbatim(s: string)
    requires forall i :: 0 <= i < |s| ==> Verbatim(s[i])
    ensures Escape(s) == s
  {
    if s != [] {
      assert Verbatim(s[0]);
      EscapeVerbatim(s[1..]);
    }
  }

  /** Escaping a concatenation is escaping each part. */
  lemma {:induction false} EscapeAppend(a: string, b: string)
    ensures Escape(a + b) == Escape(a) + Escape(b)
  {
    if a != [] {
      assert (a + b)[0] == a[0] && (a + b)[1..] == a[1..] + b;
      EscapeAppend(a[1..], b);
      calc {
        Escape(a + b);
        EscapeChar(a[0]) + Escape(a[1..] + b);
        EscapeChar(a[0]) + (Escape(a[1..]) + Escape(b));
        (EscapeChar(a[0]) + Escape(a[1..])) + Escape(b);
      }
    } else {
      assert a + b == b;
    }
  }

  /** A newline becomes `\\n`, and a non-ASCII letter its `\\u` code. */
  lemma EscapeExamples()
    ensures Escape("x\ny") == "x\\ny"
    ensures Escape("\U{e9}") == "\\u00e9"
  {
    assert "x\ny"[1..] == "\ny" && "\ny"[1..] == "y" && "y"[1..] == [];
    assert EscapeChar('\U{e9}') == UnicodeEscape(0xe9);
  }

  /** `json.dumps(v)` with the default separators `", "` and `": "`. */
  function Dumps(j: Json): string
    decreases j, 1
  {
    match j
    case JNull => "null"
    case JBool(b) => if b then "true" else "false"
    case JInt(i) => PyStr.IntToString(i)
    case JStr(s) => "\"" + Escape(s) + "\""
    case JList(items) => "[" + DumpItems(j, 0) + "]"
    case JObject(fields) => "{" + DumpFields(j, 0) + "}"
  }

  function DumpItems(j: Json, i: nat): string
    requires j.JList? && i <= |j.items|
    decreases j, 0, |j.items| - i
  {
    if i == |j.items| then ""
    else (if i > 0 then ", " else "") + Dumps(j.items[i]) + DumpItems(j, i + 1)
  }

  function DumpFields(j: Json, i: nat): string
    requires j.JObject? && i <= |j.fields|
    decreases j, 0, |j.fields| - i
  {
    if i == |j.fields| then ""
    else
      (if i > 0 then ", " else "") + "\"" + Escape(j.fields[i].key) + "\": "
      + Dumps(j.fields[i].value) + DumpFields(j, i + 1)
  }

  /** Python `str(v)` for a value that is not a dict or list. */
  function ScalarStr(j: Json): string
    requires !j.JList? && !j.JObject?
  {
    match j
    case JNull => "None"
    case JBool(b) => if b then "True" else "False"
    case JInt(i) => PyStr.IntToString(i)
    case JStr(s) => s
  }

  /**
    How a tool result becomes message content:
    `json.dumps(result) if isinstance(result, (dict, list)) else str(result)`.
   */
  function Render(j: Json): string {
    if j.JList? || j.JObject? then Dumps(j) else ScalarStr(j)
  }
}
