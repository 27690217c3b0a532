/** Values shared by the agents: the dynamically typed data the Python code
    passes around (JSON-like values, chat messages), the failure datatypes
    that stand for its exceptions, and the shapes of the external
    collaborators (tools, the JSON codec) that the model treats as oracles. */
module Values {

  datatype Option<+T> = None | Some(value: T)

  /** Success or an exception; `error` carries the exception's text. */
  datatype Result<+T, +E> = Success(value: T) | Failure(error: E)

  /** A Python value as it arrives from `json.loads` or a tool: null, a
      boolean, an integer, a string, a list or a string-keyed dict. */
  datatype Value =
    | Null
    | Bool(b: bool)
    | Int(i: int)
    | Str(s: string)
    | List(items: seq<Value>)
    | Dict(entries: map<string, Value>)

  /** Python truthiness (`if not v`). */
  predicate Truthy(v: Value) {
    match v
    case Null => false
    case Bool(b) => b
    case Int(i) => i != 0
    case Str(s) => s != ""
    case List(items) => items != []
    case Dict(entries) => entries != map[]
  }

  /** `dict.get(key)` followed by a truthiness test: false when the key is missing. */
  predicate TruthyAt(m: map<string, Value>, key: string) {
    key in m && Truthy(m[key])
  }

  /** A chat message: a dict with (by convention) "role" and "content" keys. */
  type Message = map<string, Value>

  /** The message `{"role": "assistant", "content": text}`. */
  function AssistantMessage(text: string): Message {
    map["role" := Str("assistant"), "content" := Str(text)]
  }

  /** A tool: a name, a description and the callable behind it. Calling it
      with keyword arguments either returns a value or raises, in which case
      `Failure` carries `str(e)`. */
  datatype Tool = Tool(
    name: string,
    description: string,
    invoke: map<string, Value> -> Result<Value, string>)

  /** The `json` module as the agents use it: `loads` may raise (its error
      text is the library's), `dumps` always succeeds on a `Value`. */
  datatype Json = Json(
    loads: string -> Result<Value, string>,
    dumps: Value -> string)

  /** A `str.format` template, reduced to what `format` does with it: the
      names of its replacement fields, in the order they occur. A `{` that
      is not doubled opens a field whose name runs up to the first `:`, `!`
      or matching `}`, so a literal JSON example starting `{` and a newline
      is read as a field named by the newline, the indentation and the
      example's first quoted key. */
  datatype Template = Template(fields: seq<string>)

  /** The position of the first field that the keyword arguments `keys` do
      not fill; `format` fills the fields before it and raises `KeyError`
      there. */
  function FirstUnfilled(fields: seq<string>, keys: set<string>): (r: Option<nat>)
    ensures r.None? <==> forall i :: 0 <= i < |fields| ==> fields[i] in keys
    ensures r.Some? ==>
      r.value < |fields| && fields[r.value] !in keys &&
      forall i :: 0 <= i < r.value ==> fields[i] in keys
  {
    if fields == [] then None
    else if fields[0] !in keys then Some(0)
    else
      match FirstUnfilled(fields[1..], keys)
      case None => None
      case Some(k) => Some(k + 1)
  }

  /** `t.format(**kwargs)` succeeds when every field is one of the keywords. */
  predicate Fills(t: Template, keys: set<string>) {
    FirstUnfilled(t.fields, keys).None?
  }

  /** The text of `KeyError(key)`, which is `repr(key)`: the key between
      single quotes, with each newline written as backslash and `n`. */
  function KeyErrorText(key: string): string {
    "'" + EscapeNewlines(key) + "'"
  }

  function EscapeNewlines(s: string): string {
    if s == [] then ""
    else (if s[0] == '\n' then "\\n" else [s[0]]) + EscapeNewlines(s[1..])
  }

  /** A key that starts with a newline and has no other one reads as
      backslash, `n` and the rest of the key, between single quotes. */
  lemma {:induction false} KeyErrorAfterNewline(rest: string)
    requires forall i :: 0 <= i < |rest| ==> rest[i] != '\n'
    ensures KeyErrorText("\n" + rest) == "'\\n" + rest + "'"
  {
    assert ("\n" + rest)[1..] == rest;
    NoNewlineUnescaped(rest);
  }

  lemma {:induction false} NoNewlineUnescaped(s: string)
    requires forall i :: 0 <= i < |s| ==> s[i] != '\n'
    ensures EscapeNewlines(s) == s
  {
    if s != [] {
      NoNewlineUnescaped(s[1..]);
      assert [s[0]] + s[1..] == s;
    }
  }

  /** Whether `p` is a prefix of `s` (a message content "beginning with" `p`). */
  predicate StartsWith(s: string, p: string) {
    |p| <= |s| && s[..|p|] == p
  }

  /** Concatenation is associative. Stated once over any element type, so
      that proofs about message lists do not redo extensionality. */
  lemma AppendAssoc<T>(a: seq<T>, b: seq<T>, c: seq<T>)
    ensures a + (b + c) == (a + b) + c
  {
  }

  /** The first `|a|` elements of `a + b` are `a`, the rest are `b`. */
  lemma AppendParts<T>(a: seq<T>, b: seq<T>)
    ensures (a + b)[..|a|] == a && (a + b)[|a|..] == b
  {
  }

  /** A prefix of `a` is a prefix of `a + b`. */
  lemma PrefixOfAppend<T>(p: seq<T>, a: seq<T>, b: seq<T>)
    requires |p| <= |a| && a[..|p|] == p
    ensures (a + b)[..|p|] == p
  {
    assert (a + b)[..|p|] == a[..|p|];
  }
}
