/**
 * The part of serde_json the client relies on: the `Value` tree, `get` and
 * indexing by key, `as_str`, and compact serialization (`to_string`).
 * Parsing JSON text is not modelled: it enters as a `Parser` argument.
 */
module JsonValues {
  import opened Wrappers
  import opened Strings

  /** serde_json's `Value`. Numbers are either integers (rendered in decimal) or
      floats, whose shortest-round-trip text is kept as it is. Object fields are
      held in serde_json's map order, which is ascending by key. */
  datatype Json =
    | JNull
    | JBool(b: bool)
    | JInt(i: int)
    | JFloat(text: string)
    | JString(s: string)
    | JArray(items: seq<Json>)
    | JObject(fields: seq<(string, Json)>)

  /** `serde_json::from_str::<Value>`: None when the text is not JSON. */
  type Parser = string -> Option<Json>

  function Lookup(fields: seq<(string, Json)>, key: string): (r: Option<Json>)
    ensures r.None? <==> forall i :: 0 <= i < |fields| ==> fields[i].0 != key
    ensures r.Some? ==> exists i :: 0 <= i < |fields| && fields[i] == (key, r.value)
    decreases |fields|
  {
    if |fields| == 0 then None
    else if fields[0].0 == key then Some(fields[0].1)
    else Lookup(fields[1..], key)
  }

  /** The first field answers for its own key and passes every other key on. */
  lemma LookupFront(k: string, x: Json, rest: seq<(string, Json)>, key: string)
    ensures Lookup([(k, x)] + rest, key) == if k == key then Some(x) else Lookup(rest, key)
  {
    assert ([(k, x)] + rest)[1..] == rest;
  }

  /** `Value::get(key)`: a field of an object; None for a missing key or a non-object. */
  function Get(v: Json, key: string): (r: Option<Json>)
    ensures r.None? <==> !v.JObject? || forall i :: 0 <= i < |v.fields| ==> v.fields[i].0 != key
    ensures r.Some? ==> exists i :: 0 <= i < |v.fields| && v.fields[i] == (key, r.value)
  {
    match v
    case JObject(fields) => Lookup(fields, key)
    case _ => None
  }

  /** `v[key]`: like `get`, but `Null` where `get` gives nothing. */
  function Index(v: Json, key: string): (r: Json)
    ensures Get(v, key).None? ==> r == JNull
    ensures Get(v, key).Some? ==> r == Get(v, key).value
  {
    Get(v, key).GetOr(JNull)
  }

  function AsStr(v: Json): Option<string>
  {
    if v.JString? then Some(v.s) else None
  }

  // ---------------------------------------------------------------------------
  // Serialization
  // ---------------------------------------------------------------------------

  function HexDigit(d: nat): char
    requires d < 16
  {
    "0123456789abcdef"[d]
  }

  /** serde_json's escape of one character inside a string literal: the quote,
      the backslash and the control characters; everything else is kept. */
  function Escape(c: char): (r: string)
    ensures c >= ' ' && c != '"' && c != '\\' ==> r == [c]
    ensures !(c >= ' ' && c != '"' && c != '\\') ==> 2 <= |r| && r[0] == '\\'
  {
    if c == '"' then "\\\""
    else if c == '\\' then "\\\\"
    else if c == 8 as char then "\\b"
    else if c == '\t' then "\\t"
    else if c == '\n' then "\\n"
    else if c == 12 as char then "\\f"
    else if c == '\r' then "\\r"
    else if c < ' ' then "\\u00" + [HexDigit(c as int / 16), HexDigit(c as int % 16)]
    else [c]
  }

  function EscapeAll(s: string): string
    decreases |s|
  {
    if |s| == 0 then "" else Escape(s[0]) + EscapeAll(s[1..])
  }

  /** A JSON string literal. */
  function Quote(s: string): string
  {
    "\"" + EscapeAll(s) + "\""
  }

  /** Characters that serde_json writes as they are. */
  predicate Plain(s: string)
  {
    forall i :: 0 <= i < |s| ==> s[i] >= ' ' && s[i] != '"' && s[i] != '\\'
  }

  /** A string with nothing to escape is quoted verbatim. */
  lemma {:induction false} QuotePlain(s: string)
    requires Plain(s)
    ensures Quote(s) == "\"" + s + "\""
  {
    EscapeAllPlain(s);
  }

  lemma {:induction false} EscapeAllPlain(s: string)
    requires Plain(s)
    ensures EscapeAll(s) == s
    decreases |s|
  {
    if |s| > 0 {
      EscapeAllPlain(s[1..]);
      assert [s[0]] + s[1..] == s;
    }
  }

  // A reader for the string literals the writer produces: it undoes each escape
  // and refuses a bare quote or control character, so the closing quote of a
  // literal is the first unescaped one.

  /** The value of a lower-case hexadecimal digit, -1 for any other character. */
  function HexValue(c: char): (d: int)
    ensures -1 <= d < 16
  {
    if '0' <= c <= '9' then c as int - 48
    else if 'a' <= c <= 'f' then c as int - 87
    else -1
  }

  /** The first character of escaped text and how many characters encode it. */
  function UnescapeOne(t: string): (r: Option<(char, nat)>)
    requires |t| > 0
    ensures r.Some? ==> 1 <= r.value.1 <= |t|
  {
    if t[0] == '"' || t[0] < ' ' then None
    else if t[0] != '\\' then Some((t[0], 1))
    else if |t| < 2 then None
    else if t[1] == '"' then Some(('"', 2))
    else if t[1] == '\\' then Some(('\\', 2))
    else if t[1] == 'b' then Some((8 as char, 2))
    else if t[1] == 't' then Some(('\t', 2))
    else if t[1] == 'n' then Some(('\n', 2))
    else if t[1] == 'f' then Some((12 as char, 2))
    else if t[1] == 'r' then Some(('\r', 2))
    else if t[1] == 'u' && |t| >= 6 && t[2] == '0' && t[3] == '0' && HexValue(t[4]) >= 0 && HexValue(t[5]) >= 0 then
      Some(((HexValue(t[4]) * 16 + HexValue(t[5])) as char, 6))
    else None
  }

  function Unescape(t: string): Option<string>
    decreases |t|
  {
    if |t| == 0 then Some("")
    else
      match UnescapeOne(t)
      case None => None
      case Some((c, n)) =>
        match Unescape(t[n..])
        case None => None
        case Some(rest) => Some([c] + rest)
  }

  /** The text between the quotes of a string literal, unescaped. */
  function Unquote(t: string): Option<string>
  {
    if |t| >= 2 && t[0] == '"' && t[|t| - 1] == '"' then Unescape(t[1..|t| - 1]) else None
  }

  lemma HexValueOfDigit(d: nat)
    requires d < 16
    ensures HexValue(HexDigit(d)) == d
  {
    assert "0123456789abcdef"[d] as int == if d < 10 then d + 48 else d + 87;
  }

  /** One escaped character is read back, and only its own characters are consumed. */
  lemma UnescapeOneEscape(c: char, t: string)
    ensures UnescapeOne(Escape(c) + t) == Some((c, |Escape(c)|))
  {
    if c < ' ' && c != 8 as char && c != '\t' && c != '\n' && c != 12 as char && c != '\r' {
      var hi, lo := c as int / 16, c as int % 16;
      HexValueOfDigit(hi);
      HexValueOfDigit(lo);
      assert Escape(c) == "\\u00" + [HexDigit(hi), HexDigit(lo)];
      assert (Escape(c) + t)[4] == HexDigit(hi) && (Escape(c) + t)[5] == HexDigit(lo);
      assert (hi * 16 + lo) as char == c;
    }
  }

  /** Escaping loses nothing: the reader gives the characters back. */
  lemma {:induction false} UnescapeEscapeAll(s: string)
    ensures Unescape(EscapeAll(s)) == Some(s)
    decreases |s|
  {
    if |s| > 0 {
      var e, rest := Escape(s[0]), EscapeAll(s[1..]);
      assert EscapeAll(s) == e + rest;
      UnescapeOneEscape(s[0], rest);
      assert (e + rest)[|e|..] == rest;
      UnescapeEscapeAll(s[1..]);
      assert [s[0]] + s[1..] == s;
    }
  }

  /** Every string literal the writer produces reads back as its string. */
  lemma UnquoteQuote(s: string)
    ensures Unquote(Quote(s)) == Some(s)
  {
    var q := Quote(s);
    assert q[1..|q| - 1] == EscapeAll(s);
    UnescapeEscapeAll(s);
  }

  /** `Value::to_string`: compact text, no whitespace, fields in stored order.
      The first and last characters tell what kind of value was written. */
  function Serialize(v: Json): (r: string)
    ensures v.JObject? ==> |r| >= 2 && r[0] == '{' && r[|r| - 1] == '}'
    ensures v.JArray? ==> |r| >= 2 && r[0] == '[' && r[|r| - 1] == ']'
    ensures v.JString? ==> |r| >= 2 && r[0] == '"' && r[|r| - 1] == '"'
    ensures v.JNull? ==> r == "null"
    ensures v.JBool? ==> r == if v.b then "true" else "false"
    decreases v
  {
    match v
    case JNull => "null"
    case JBool(b) => if b then "true" else "false"
    case JInt(i) => IntString(i)
    case JFloat(t) => t
    case JString(s) => Quote(s)
    case JArray(items) =>
      "[" + Join(seq(|items|, i requires 0 <= i < |items| => Serialize(items[i])), ",") + "]"
    case JObject(fields) =>
      "{" + Join(seq(|fields|, i requires 0 <= i < |fields| =>
                       Quote(fields[i].0) + ":" + Serialize(fields[i].1)), ",") + "}"
  }

  /** A two-field object's text: both members in stored order. */
  lemma SerializeObjectTwo(k1: string, v1: Json, k2: string, v2: Json)
    ensures Serialize(JObject([(k1, v1), (k2, v2)]))
         == "{" + Quote(k1) + ":" + Serialize(v1) + "," + Quote(k2) + ":" + Serialize(v2) + "}"
  {
    var fields := [(k1, v1), (k2, v2)];
    var m1, m2 := Quote(k1) + ":" + Serialize(v1), Quote(k2) + ":" + Serialize(v2);
    assert seq(|fields|, i requires 0 <= i < |fields| => Quote(fields[i].0) + ":" + Serialize(fields[i].1))
        == [m1, m2];
    JoinTwo(m1, m2, ",");
    BracedPair(Quote(k1), Serialize(v1), Quote(k2), Serialize(v2));
  }

  lemma BracedPair(a: string, b: string, c: string, d: string)
    ensures "{" + ((a + ":" + b) + "," + (c + ":" + d)) + "}"
         == "{" + a + ":" + b + "," + c + ":" + d + "}"
  {
  }

  // ---------------------------------------------------------------------------
  // String maps
  // ---------------------------------------------------------------------------

  /** A BTreeMap<String, String> as a JSON object: its fields in ascending key order. */
  function StringObject(p: map<string, string>): (v: Json)
    ensures v.JObject? && |v.fields| == |p|
  {
    var ks := SortedKeys(p.Keys);
    JObject(seq(|ks|, i requires 0 <= i < |ks| => (ks[i], JString(p[ks[i]]))))
  }

  /** Looking a key up in the object finds exactly the map's entry. */
  lemma StringObjectGet(p: map<string, string>, k: string)
    ensures Get(StringObject(p), k) == if k in p then Some(JString(p[k])) else None
  {
    var ks := SortedKeys(p.Keys);
    var fields := StringObject(p).fields;
    assert forall i :: 0 <= i < |ks| ==> fields[i] == (ks[i], JString(p[ks[i]]));
    LookupAscending(fields, ks, k);
  }

  /** In fields whose keys are listed in ascending order, a key is found at its
      unique position. */
  lemma LookupAscending(fields: seq<(string, Json)>, ks: seq<string>, k: string)
    requires |fields| == |ks| && Ascending(ks)
    requires forall i :: 0 <= i < |ks| ==> fields[i].0 == ks[i]
    ensures k in ks ==> Lookup(fields, k).Some?
    ensures forall i :: 0 <= i < |ks| && ks[i] == k ==> Lookup(fields, k) == Some(fields[i].1)
    ensures k !in ks ==> Lookup(fields, k).None?
  {
    forall i | 0 <= i < |ks| && ks[i] == k ensures Lookup(fields, k) == Some(fields[i].1) {
      var r := Lookup(fields, k);
      var j :| 0 <= j < |ks| && fields[j] == (k, r.value);
      if i != j {
        if i < j { assert Below(ks[i], ks[j]); } else { assert Below(ks[j], ks[i]); }
        BelowIrreflexive(k);
      }
    }
  }

  /** `serde_json::to_string(&BTreeMap<String, String>)`: the same text as the
      corresponding `Value` object. */
  function ParamsJson(p: map<string, string>): string
  {
    Serialize(StringObject(p))
  }

  /** One `"key":"value"` member of a string object. */
  function Member(k: string, v: string): string
  {
    Quote(k) + ":" + Quote(v)
  }

  /** The members for the keys `ks`, in that order. */
  function Members(p: map<string, string>, ks: seq<string>): seq<string>
    requires forall k :: k in ks ==> k in p
  {
    seq(|ks|, i requires 0 <= i < |ks| => Member(ks[i], p[ks[i]]))
  }

  /** A member whose key needs no escaping. */
  lemma PlainMember(k: string, v: string)
    requires Plain(k)
    ensures Member(k, v) == "\"" + k + "\":" + Quote(v)
  {
    QuotePlain(k);
  }

  /** Any ascending listing of the keys gives the object text. */
  lemma ParamsJsonListed(p: map<string, string>, ks: seq<string>)
    requires Ascending(ks)
    requires forall k :: k in ks <==> k in p
    ensures ParamsJson(p) == "{" + Join(Members(p, ks), ",") + "}"
  {
    SortedKeysUnique(ks, p.Keys);
    var fields := StringObject(p).fields;
    assert seq(|fields|, i requires 0 <= i < |fields| => Quote(fields[i].0) + ":" + Serialize(fields[i].1))
        == Members(p, ks);
  }

  lemma MembersTwo(p: map<string, string>, k1: string, k2: string)
    requires k1 in p && k2 in p
    ensures Members(p, [k1, k2]) == [Member(k1, p[k1]), Member(k2, p[k2])]
  {
  }

  lemma MembersThree(p: map<string, string>, k1: string, k2: string, k3: string)
    requires k1 in p && k2 in p && k3 in p
    ensures Members(p, [k1, k2, k3]) == [Member(k1, p[k1]), Member(k2, p[k2]), Member(k3, p[k3])]
  {
  }

  lemma MembersFour(p: map<string, string>, k1: string, k2: string, k3: string, k4: string)
    requires k1 in p && k2 in p && k3 in p && k4 in p
    ensures Members(p, [k1, k2, k3, k4])
         == [Member(k1, p[k1]), Member(k2, p[k2]), Member(k3, p[k3]), Member(k4, p[k4])]
  {
  }

  // The Braced lemmas put a joined member list between braces, one member at a
  // time; they only unfold Join and re-associate concatenation.

  lemma Braced2(s: string, a: string, b: string)
    requires s == "{" + Join([a, b], ",") + "}"
    ensures s == "{" + a + "," + b + "}"
  {
    JoinTwo(a, b, ",");
  }

  lemma Braced3(s: string, a: string, b: string, c: string)
    requires s == "{" + Join([a, b, c], ",") + "}"
    ensures s == "{" + a + "," + b + "," + c + "}"
  {
    JoinThree(a, b, c, ",");
  }

  lemma Braced4(s: string, a: string, b: string, c: string, d: string)
    requires s == "{" + Join([a, b, c, d], ",") + "}"
    ensures s == "{" + a + "," + b + "," + c + "," + d + "}"
  {
    JoinFour(a, b, c, d, ",");
  }

  /** The object text of one string entry. */
  lemma ParamsJsonOfOne(k: string, v: string)
    ensures ParamsJson(map[k := v]) == "{" + Member(k, v) + "}"
  {
    AscendingFromNeighbours([k]);
    ParamsJsonListed(map[k := v], [k]);
  }

  /** The object text of two string entries, in key order. */
  lemma ParamsJsonOfTwo(k1: string, v1: string, k2: string, v2: string)
    requires Below(k1, k2)
    ensures ParamsJson(map[k1 := v1, k2 := v2]) == "{" + Member(k1, v1) + "," + Member(k2, v2) + "}"
  {
    BelowIrreflexive(k1);
    var p := map[k1 := v1, k2 := v2];
    AscendingFromNeighbours([k1, k2]);
    ParamsJsonListed(p, [k1, k2]);
    MembersTwo(p, k1, k2);
    Braced2(ParamsJson(p), Member(k1, v1), Member(k2, v2));
  }

  /** The object text of three string entries, in key order. */
  lemma ParamsJsonOfThree(k1: string, v1: string, k2: string, v2: string, k3: string, v3: string)
    requires Below(k1, k2) && Below(k2, k3)
    ensures ParamsJson(map[k1 := v1, k2 := v2, k3 := v3])
         == "{" + Member(k1, v1) + "," + Member(k2, v2) + "," + Member(k3, v3) + "}"
  {
    AscendingThree(k1, k2, k3);
    MapOfThree(k1, v1, k2, v2, k3, v3);
    var p := map[k1 := v1, k2 := v2, k3 := v3];
    ParamsJsonListed(p, [k1, k2, k3]);
    MembersThree(p, k1, k2, k3);
    Braced3(ParamsJson(p), Member(k1, v1), Member(k2, v2), Member(k3, v3));
  }

  /** The object text of four string entries, in key order. */
  lemma ParamsJsonOfFour(k1: string, v1: string, k2: string, v2: string,
                         k3: string, v3: string, k4: string, v4: string)
    requires Below(k1, k2) && Below(k2, k3) && Below(k3, k4)
    ensures ParamsJson(map[k1 := v1, k2 := v2, k3 := v3, k4 := v4])
         == "{" + Member(k1, v1) + "," + Member(k2, v2) + "," + Member(k3, v3) + "," + Member(k4, v4) + "}"
  {
    AscendingFour(k1, k2, k3, k4);
    MapOfFour(k1, v1, k2, v2, k3, v3, k4, v4);
    var p := map[k1 := v1, k2 := v2, k3 := v3, k4 := v4];
    ParamsJsonListed(p, [k1, k2, k3, k4]);
    MembersFour(p, k1, k2, k3, k4);
    Braced4(ParamsJson(p), Member(k1, v1), Member(k2, v2), Member(k3, v3), Member(k4, v4));
  }

  lemma EmptyParamsJson()
    ensures ParamsJson(map[]) == "{}"
  {
    assert SortedKeys({}) == [];
  }
}
