/** The payloads the agents exchange. Python hands the hooks and handlers untyped
    values; the model closes them into a tagged union. */
module Values {
  import opened Text

  datatype Option<+T> = None | Some(value: T)

  /** A Python value as the agents see it: `None`, a string, a dict with string keys,
      or anything else (a number, a boolean, a list), kept as its two texts: what
      `str()` prints and what `json.dumps` writes. They differ for booleans (`True`
      and `true`) and for lists holding strings or `None` (`['a', None]` and
      `["a", null]`). */
  datatype Value =
    | Null
    | Str(s: string)
    | Dict(fields: map<string, Value>)
    | Other(repr: string, json: string)

  /** Python's booleans. */
  const PyTrue: Value := Other("True", "true")
  const PyFalse: Value := Other("False", "false")

  /** `d.get(k, default)`. */
  function Get(d: map<string, Value>, k: string, default: Value): (r: Value)
    ensures k in d ==> r == d[k]
    ensures k !in d ==> r == default
  {
    if k in d then d[k] else default
  }

  /** `json.dumps(v, sort_keys=True)`, without the escaping of quotes and non-ASCII
      characters inside strings: `null`, a quoted string, a scalar's or list's JSON
      text, or a braced dict whose first entry is its least key. */
  function Dumps(v: Value): (r: string)
    ensures v.Null? ==> r == "null"
    ensures v.Str? ==> |r| == |v.s| + 2 && r[0] == '"' && r[1..|r| - 1] == v.s && r[|r| - 1] == '"'
    ensures v.Other? ==> r == v.json
    ensures v.Dict? ==> |r| >= 2 && r[0] == '{' && r[|r| - 1] == '}'
    ensures v.Dict? && v.fields == map[] ==> r == "{}"
    ensures v.Dict? && |v.fields| > 0 ==> StartsWith(r[1..], "\"" + Sorted(v.fields.Keys)[0] + "\": ")
    decreases v, 1
  {
    match v
    case Null => "null"
    case Str(s) => "\"" + s + "\""
    case Other(_, j) => j
    case Dict(m) =>
      var keys := Sorted(m.Keys);
      var inner := DumpsFields(v, keys);
      assert ("{" + inner + "}")[1..] == inner + "}";
      assert keys != [] ==> StartsWith(inner + "}", "\"" + keys[0] + "\": ") by {
        if keys != [] {
          PrefixOfLonger("\"" + keys[0] + "\": ", inner, "}");
        }
      }
      "{" + inner + "}"
  }

  lemma PrefixOfLonger(p: string, s: string, t: string)
    requires StartsWith(s, p)
    ensures StartsWith(s + t, p)
  {
    assert (s + t)[..|p|] == s[..|p|];
  }

  /** The `"key": value` entries of a dict, in the given key order, joined by ", ". */
  function DumpsFields(d: Value, keys: seq<string>): (r: string)
    requires d.Dict? && forall k :: k in keys ==> k in d.fields
    ensures keys != [] ==> StartsWith(r, "\"" + keys[0] + "\": ")
    decreases d, 0, |keys|
  {
    if keys == [] then ""
    else
      var entry := "\"" + keys[0] + "\": " + Dumps(d.fields[keys[0]]);
      if |keys| == 1 then entry else entry + ", " + DumpsFields(d, keys[1..])
  }

  /** `str(v)`: a string prints as itself and `None` as "None"; a dict is printed as
      its JSON text. */
  function PyStr(v: Value): (r: string)
    ensures v.Str? ==> r == v.s
    ensures v.Null? ==> r == "None"
    ensures v.Other? ==> r == v.repr
    ensures v.Dict? ==> r == Dumps(v)
  {
    match v
    case Null => "None"
    case Str(s) => s
    case Other(p, _) => p
    case Dict(_) => Dumps(v)
  }

  /** `str` and `json.dumps` give different texts for a string, for `None`, and for
      any other value whose two texts differ, such as a boolean; they agree on a
      dict only because the model prints dicts as JSON. */
  lemma StrDiffersFromJson(v: Value)
    ensures v.Str? || v.Null? ==> PyStr(v) != Dumps(v)
    ensures v.Other? ==> (PyStr(v) == Dumps(v) <==> v.repr == v.json)
    ensures PyStr(PyTrue) == "True" && Dumps(PyTrue) == "true"
    ensures PyStr(PyFalse) == "False" && Dumps(PyFalse) == "false"
  {
    if v.Str? {
      assert |Dumps(v)| == |PyStr(v)| + 2;
    }
  }
}
