/**
 * The Python values that flow through the application: the contents of
 * Streamlit's session map, the dictionaries the vision model returns, and
 * the arguments of the description composer. Also Python truthiness, dict
 * lookup, `str()` of a value, and the exceptions the code raises.
 */
module PyValue {
  import opened Wrappers
  import opened Text

  /**
   * A file handed over by Streamlit's uploader. `fileId` is the identity
   * Streamlit compares uploads by; `isImage` is whether PIL can open and
   * verify its bytes.
   */
  datatype UploadedFile = UploadedFile(fileId: nat, name: string, isImage: bool)

  /** A Python value. A dict is the ordered sequence of its entries. */
  datatype Value =
    | PyNone
    | PyBool(b: bool)
    | PyInt(i: int)
    | PyStr(s: string)
    | PyList(items: seq<Value>)
    | PyDict(entries: seq<(string, Value)>)
    | PyFile(file: UploadedFile)
    | PyFunction(name: string)

  /** The exceptions raised along the modelled paths. */
  datatype PyError =
    | AttributeError
    | TypeError
    | RuntimeError(message: string)
    | ApiError(message: string)

  /** Python truthiness: None, False, 0 and empty containers are false. */
  predicate Truthy(v: Value)
  {
    match v
    case PyNone => false
    case PyBool(b) => b
    case PyInt(i) => i != 0
    case PyStr(s) => s != ""
    case PyList(items) => items != []
    case PyDict(entries) => entries != []
    case PyFile(_) => true
    case PyFunction(_) => true
  }

  /** `d.get(k)` on a dict's entries: the value stored under `k`, if any. */
  function Get(entries: seq<(string, Value)>, k: string): (r: Option<Value>)
    ensures r.Some? <==> exists i :: 0 <= i < |entries| && entries[i].0 == k
    ensures r.Some? ==> exists i :: 0 <= i < |entries| && entries[i] == (k, r.value)
  {
    if entries == [] then None
    else if entries[0].0 == k then Some(entries[0].1)
    else
      var r := Get(entries[1..], k);
      assert r.Some? ==> entries[1..][0].0 == k || exists i :: 1 <= i < |entries| && entries[i].0 == k;
      r
  }

  /** Lookup finds the first entry under the key. */
  lemma {:induction false} GetFirstMatch(entries: seq<(string, Value)>, k: string, i: nat)
    requires i < |entries| && entries[i].0 == k
    requires forall j :: 0 <= j < i ==> entries[j].0 != k
    ensures Get(entries, k) == Some(entries[i].1)
    decreases i
  {
    if i > 0 {
      GetFirstMatch(entries[1..], k, i - 1);
    }
  }

  /** `k in d` for a dict value; false for anything else. */
  predicate HasKey(v: Value, k: string)
  {
    v.PyDict? && Get(v.entries, k).Some?
  }

  /** The keys of a dict, in order. */
  function Keys(entries: seq<(string, Value)>): (ks: seq<string>)
    ensures |ks| == |entries| && forall i :: 0 <= i < |entries| ==> ks[i] == entries[i].0
  {
    seq(|entries|, i requires 0 <= i < |entries| => entries[i].0)
  }

  /**
   * Python `repr` of a string: single quotes unless the string holds a
   * single quote and no double quote; backslash, the chosen quote and the
   * three usual control characters are escaped.
   */
  function StrRepr(s: string): string
  {
    var q := if HasChar(s, '\'') && !HasChar(s, '"') then '"' else '\'';
    [q] + Escape(s, q) + [q]
  }

  function Escape(s: string, q: char): string
  {
    if s == "" then ""
    else
      var c := s[0];
      var e := if c == '\\' then "\\\\"
               else if c == q then ['\\', q]
               else if c == '\n' then "\\n"
               else if c == '\r' then "\\r"
               else if c == '\t' then "\\t"
               else [c];
      e + Escape(s[1..], q)
  }

  /** Python `str(v)`, which is what an f-string interpolates. */
  function Format(v: Value): string
  {
    if v.PyStr? then v.s else Repr(v)
  }

  /** Python `repr(v)`, used for the items of lists and dicts. */
  function Repr(v: Value): string
  {
    match v
    case PyNone => "None"
    case PyBool(b) => if b then "True" else "False"
    case PyInt(i) => Decimal(i)
    case PyStr(s) => StrRepr(s)
    case PyList(items) =>
      "[" + Join(seq(|items|, k requires 0 <= k < |items| => Repr(items[k])), ", ") + "]"
    case PyDict(entries) =>
      "{" + Join(seq(|entries|, k requires 0 <= k < |entries| =>
                     StrRepr(entries[k].0) + ": " + Repr(entries[k].1)), ", ") + "}"
    case PyFile(f) => "UploadedFile(" + StrRepr(f.name) + ")"
    case PyFunction(name) => "<function " + name + ">"
  }

  /** `str()` of a string is the string; of None and the booleans, their names. */
  lemma FormatScalars(s: string, b: bool)
    ensures Format(PyStr(s)) == s
    ensures Format(PyNone) == "None"
    ensures Format(PyBool(b)) == (if b then "True" else "False")
  {
  }

  /** A character `repr` writes as it is inside quotes `q`. */
  predicate PlainChar(c: char, q: char)
  {
    c != '\\' && c != q && c != '\n' && c != '\r' && c != '\t'
  }

  /** Escaping changes nothing in a string of plain characters. */
  lemma {:induction false} EscapePlain(s: string, q: char)
    requires forall i :: 0 <= i < |s| ==> PlainChar(s[i], q)
    ensures Escape(s, q) == s
    decreases |s|
  {
    if s != "" {
      EscapePlain(s[1..], q);
      assert s == [s[0]] + s[1..];
    }
  }

  /**
   * A string with no quote of either kind, no backslash and no control
   * character among the three is written between single quotes as it is.
   */
  lemma StrReprPlain(s: string)
    requires forall i :: 0 <= i < |s| ==> PlainChar(s[i], '\'') && s[i] != '"'
    ensures StrRepr(s) == "'" + s + "'"
  {
    assert !HasChar(s, '\'');
    EscapePlain(s, '\'');
  }

  /** Escaping never leaves a newline, so a string's `repr` is one line. */
  lemma {:induction false} EscapeOneLine(s: string, q: char)
    requires q != '\n'
    ensures !HasChar(Escape(s, q), '\n')
    decreases |s|
  {
    if s != "" {
      EscapeOneLine(s[1..], q);
      var c := s[0];
      var e := if c == '\\' then "\\\\"
               else if c == q then ['\\', q]
               else if c == '\n' then "\\n"
               else if c == '\r' then "\\r"
               else if c == '\t' then "\\t"
               else [c];
      assert Escape(s, q) == e + Escape(s[1..], q);
      assert !HasChar(e, '\n');
    }
  }

  /** `repr` of a string never holds a newline. */
  lemma StrReprOneLine(s: string)
    ensures !HasChar(StrRepr(s), '\n')
  {
    var q := if HasChar(s, '\'') && !HasChar(s, '"') then '"' else '\'';
    EscapeOneLine(s, q);
    var r := StrRepr(s);
    assert r == [q] + Escape(s, q) + [q];
    forall i | 0 <= i < |r| ensures r[i] != '\n' {
      if 0 < i < |r| - 1 {
        assert r[i] == Escape(s, q)[i - 1];
      }
    }
  }

  /** `v.lower()`: only strings have it; anything else raises AttributeError. */
  function PyLower(v: Value): (r: Result<string, PyError>)
    ensures r.Ok? <==> v.PyStr?
    ensures r.Ok? ==> r.value == Lower(v.s)
  {
    if v.PyStr? then Ok(Lower(v.s)) else Err(AttributeError)
  }
}
