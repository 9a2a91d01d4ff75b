/**
 * What the Flask route handlers share: JSON request values, Python's
 * truthiness and numeric conversions on them, and the `%s` placeholders of
 * the SQL text they build (the database driver fills one parameter per
 * placeholder).
 */
module SqlParams {
  import opened Wrappers
  import opened StringUtil

  /** A value of a decoded JSON body; of a list or an object only its
      emptiness matters here. */
  datatype Json = JNull | JBool(b: bool) | JInt(i: int) | JNum(r: real) | JStr(s: string) | JCompound(empty: bool)

  /** Python truthiness of a JSON value. */
  predicate Truthy(v: Json) {
    match v
    case JNull => false
    case JBool(b) => b
    case JInt(i) => i != 0
    case JNum(r) => r != 0.0
    case JStr(s) => s != ""
    case JCompound(empty) => !empty
  }

  /** Python truthiness of `request.args.get(name)`: present and non-empty. */
  predicate ArgTruthy(arg: Option<string>) {
    arg.Some? && arg.value != ""
  }

  /** `data.get(key, default)`. */
  function Get(data: map<string, Json>, key: string, default: Json): (r: Json)
    ensures key in data ==> r == data[key]
    ensures key !in data ==> r == default
  {
    if key in data then data[key] else default
  }

  /** A SQL parameter. */
  datatype Param = PStr(s: string) | PInt(i: int) | PReal(r: real) | PJson(j: Json)

  /** `float(v)` (Python): None where it raises. `parseFloat` reads the text of
      a string, which Python accepts in many spellings. */
  function FloatOf(v: Json, parseFloat: string -> Option<real>): Option<real> {
    match v
    case JNull => None
    case JBool(b) => Some(if b then 1.0 else 0.0)
    case JInt(i) => Some(i as real)
    case JNum(r) => Some(r)
    case JStr(s) => parseFloat(s)
    case JCompound(_) => None
  }

  const Placeholder: string := "%s"

  /** The placeholders in a piece of SQL text. */
  function Placeholders(sql: string): nat {
    Count(sql, Placeholder)
  }

  /** Text without '%' holds no placeholder. */
  lemma {:induction false} NoPercentNoPlaceholder(s: string)
    requires '%' !in s
    ensures Placeholders(s) == 0
  {
    if |s| >= 2 {
      assert s[..2] != Placeholder by { assert s[0] in s; }
      assert forall c :: c in s[1..] ==> c in s;
      NoPercentNoPlaceholder(s[1..]);
    }
  }

  /** Placeholders add up over a concatenation unless a '%' at the end of the
      first part meets an 's' at the start of the second. */
  lemma {:induction false} PlaceholdersAppend(a: string, b: string)
    requires a == [] || b == [] || a[|a| - 1] != '%' || b[0] != 's'
    ensures Placeholders(a + b) == Placeholders(a) + Placeholders(b)
    decreases |a|
  {
    if a == [] {
      assert a + b == b;
    } else if |a| == 1 {
      if |a + b| >= 2 {
        assert (a + b)[0] == a[0] && (a + b)[1] == b[0];
        assert Placeholder[0] == '%' && Placeholder[1] == 's';
        assert (a + b)[..2] != Placeholder;
        assert (a + b)[1..] == b;
      }
    } else if a[..2] == Placeholder {
      assert (a + b)[..2] == a[..2];
      assert (a + b)[2..] == a[2..] + b;
      PlaceholdersAppend(a[2..], b);
    } else {
      assert (a + b)[..2] == a[..2];
      assert (a + b)[1..] == a[1..] + b;
      PlaceholdersAppend(a[1..], b);
    }
  }

  /** `text + "%s"` for text without '%' holds exactly one placeholder. */
  lemma OnePlaceholder(text: string)
    requires '%' !in text
    ensures Placeholders(text + Placeholder) == 1
  {
    NoPercentNoPlaceholder(text);
    PlaceholdersAppend(text, Placeholder);
    assert Placeholder[2..] == [];
  }

  /** Appending a clause `text%s` adds one placeholder and leaves the text
      ending in 's'. */
  lemma ClauseAppend(sql: string, text: string)
    requires '%' !in text
    requires sql == [] || sql[|sql| - 1] != '%'
    ensures Placeholders(sql + text + Placeholder) == Placeholders(sql) + 1
    ensures (sql + text + Placeholder)[|sql + text + Placeholder| - 1] == 's'
  {
    OnePlaceholder(text);
    assert sql + text + Placeholder == sql + (text + Placeholder);
    PlaceholdersAppend(sql, text + Placeholder);
  }

  /** Appending text without '%' adds no placeholder. */
  lemma TextAppend(sql: string, text: string)
    requires '%' !in text
    requires sql == [] || sql[|sql| - 1] != '%'
    ensures Placeholders(sql + text) == Placeholders(sql)
    ensures text != [] ==> (sql + text)[|sql + text| - 1] != '%'
  {
    NoPercentNoPlaceholder(text);
    PlaceholdersAppend(sql, text);
    if text != [] {
      assert (sql + text)[|sql + text| - 1] == text[|text| - 1];
      assert text[|text| - 1] in text;
    }
  }
}
