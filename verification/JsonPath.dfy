/**
 Dotted keys of a query against a JSON document: `build_nested_json`,
 `json_text_col` and `escape_json_string` (src/query.rs, lines 333-355 and
 504-541), and the jsonb containment test they feed.
 */
module JsonPath {
  import opened Text

  datatype Json =
    | JNull
    | JBool(b: bool)
    | JNumber(n: int)
    | JString(s: string)
    | JArray(items: seq<Json>)
    | JObject(fields: map<string, Json>)

  // ─── What the database is asked ───

  /** `doc @> pattern` below the top level (PostgreSQL manual, section 8.14.3). */
  predicate Contains(doc: Json, pattern: Json)
    decreases pattern
  {
    match pattern
    case JObject(fields) =>
      && doc.JObject?
      && forall k :: k in fields ==> k in doc.fields && Contains(doc.fields[k], fields[k])
    case JArray(items) =>
      && doc.JArray?
      && forall i :: 0 <= i < |items| ==> exists j :: 0 <= j < |doc.items| && Contains(doc.items[j], items[i])
    case _ => doc == pattern
  }

  /** The value a path of field names leads to, if every step is a field of an object. */
  function Follow(doc: Json, path: seq<string>): Option<Json>
    decreases |path|
  {
    if path == [] then Some(doc)
    else if doc.JObject? && path[0] in doc.fields then Follow(doc.fields[path[0]], path[1..])
    else None
  }

  // ─── build_nested_json ───

  /** The object with one leaf, at exactly the path. */
  function Nest(path: seq<string>, leaf: Json): Json
    decreases |path|
  {
    if path == [] then leaf else JObject(map[path[0] := Nest(path[1..], leaf)])
  }

  lemma {:induction false} FollowNest(path: seq<string>, leaf: Json)
    ensures Follow(Nest(path, leaf), path) == Some(leaf)
    decreases |path|
  {
    if path != [] {
      FollowNest(path[1..], leaf);
    }
  }

  /** A `field:value` filter holds of exactly the documents where the path yields the value. */
  lemma {:induction false} PathEquality(doc: Json, path: seq<string>, value: string)
    ensures Contains(doc, Nest(path, JString(value))) <==> Follow(doc, path) == Some(JString(value))
    decreases |path|
  {
    if path != [] {
      var rest := Nest(path[1..], JString(value));
      assert Nest(path, JString(value)).fields == map[path[0] := rest];
      if doc.JObject? && path[0] in doc.fields {
        PathEquality(doc.fields[path[0]], path[1..], value);
      }
    }
  }

  /** A `tag:value` filter holds of exactly the documents whose `tags` array has the value. */
  lemma TagMembership(doc: Json, tag: string)
    ensures Contains(doc, Nest(["tags"], JArray([JString(tag)])))
       <==> (match Follow(doc, ["tags"])
             case Some(tags) => tags.JArray? && JString(tag) in tags.items
             case None => false)
  {
    var want := JArray([JString(tag)]);
    assert Nest(["tags"], want).fields == map["tags" := want];
    if doc.JObject? && "tags" in doc.fields {
      var tags := doc.fields["tags"];
      assert Follow(doc, ["tags"]) == Some(tags);
      assert want.items[0] == JString(tag);
      if tags.JArray? {
        if JString(tag) in tags.items {
          var j :| 0 <= j < |tags.items| && tags.items[j] == JString(tag);
          assert Contains(tags.items[j], want.items[0]);
        }
        if Contains(tags, want) {
          var j :| 0 <= j < |tags.items| && Contains(tags.items[j], want.items[0]);
          assert tags.items[j] == JString(tag);
        }
      }
    }
  }

  /** A map under construction, as the pointer-walking loop sees it. */
  class JsonMap {
    var texts: map<string, string>
    var children: map<string, JsonMap>

    constructor ()
      ensures texts == map[] && children == map[]
    {
      texts, children := map[], map[];
    }
  }

  /**
   The maps along the path, outermost first: each but the last holds the next
   one under its part of the path and nothing else, and the last one holds
   the value.
   */
  ghost predicate Spine(nodes: seq<JsonMap>, path: seq<string>, value: string)
    reads nodes
  {
    && |nodes| == |path| > 0
    && (forall i :: 0 <= i < |nodes| - 1 ==>
          nodes[i].texts == map[] && nodes[i].children == map[path[i] := nodes[i + 1]])
    && nodes[|nodes| - 1].children == map[]
    && nodes[|nodes| - 1].texts == map[path[|path| - 1] := value]
  }

  /** The JSON text of the outermost map of a spine, as a value. */
  ghost function ToValue(nodes: seq<JsonMap>, path: seq<string>, value: string): (j: Json)
    requires Spine(nodes, path, value)
    reads nodes
    decreases |nodes|
  {
    if |nodes| == 1 then JObject(map k | k in nodes[0].texts :: JString(nodes[0].texts[k]))
    else
      assert Spine(nodes[1..], path[1..], value);
      JObject(map k | k in nodes[0].children :: ToValue(nodes[1..], path[1..], value))
  }

  lemma {:induction false} SpineIsNest(nodes: seq<JsonMap>, path: seq<string>, value: string)
    requires Spine(nodes, path, value)
    ensures ToValue(nodes, path, value) == Nest(path, JString(value))
    decreases |nodes|
  {
    if |nodes| == 1 {
      assert Nest(path[1..], JString(value)) == JString(value);
      assert Nest(path, JString(value)) == JObject(map[path[0] := JString(value)]);
    } else {
      assert Spine(nodes[1..], path[1..], value);
      SpineIsNest(nodes[1..], path[1..], value);
      assert ToValue(nodes, path, value).fields
          == map[path[0] := ToValue(nodes[1..], path[1..], value)];
    }
  }

  /** Lines 504-521: walk a pointer down, inserting one map per part of the key. */
  method BuildNestedJson(key: string, value: string) returns (json: JsonMap, ghost nodes: seq<JsonMap>)
    ensures Spine(nodes, Split(key), value) && nodes[0] == json
    ensures ToValue(nodes, Split(key), value) == Nest(Split(key), JString(value))
    ensures fresh(nodes)
  {
    var parts := Split(key);
    json := new JsonMap();
    var current := json;
    nodes := [json];
    for i := 0 to |parts| - 1
      invariant |nodes| == i + 1 && nodes[0] == json && nodes[i] == current
      invariant fresh(nodes)
      invariant forall j, k :: 0 <= j < k <= i ==> nodes[j] != nodes[k]
      invariant forall j :: 0 <= j < i ==>
        nodes[j].texts == map[] && nodes[j].children == map[parts[j] := nodes[j + 1]]
      invariant current.texts == map[] && current.children == map[]
    {
      var next := new JsonMap();
      current.children := current.children[parts[i] := next];
      current := next;
      nodes := nodes + [next];
    }
    current.texts := current.texts[parts[|parts| - 1] := value];
    SpineIsNest(nodes, parts, value);
  }

  // ─── json_text_col ───

  /** `->'name'` keeps the JSON value, `->>'name'` takes it as text. */
  datatype Step = Arrow(name: string) | ArrowText(name: string)

  function ColumnSteps(parts: seq<string>): seq<Step>
    requires parts != []
  {
    if |parts| == 1 then [ArrowText(parts[0])] else [Arrow(parts[0])] + ColumnSteps(parts[1..])
  }

  /** A JSON value as text; NULL for a JSON null. Text of other values is left open. */
  function AsText(j: Json, show: Json -> string): Option<string> {
    match j case JNull => None case JString(s) => Some(s) case _ => Some(show(j))
  }

  function Field(doc: Option<Json>, name: string): Option<Json> {
    if doc.Some? && doc.value.JObject? && name in doc.value.fields then Some(doc.value.fields[name]) else None
  }

  /** The value of `data` followed by the steps; NULL is None. */
  function EvalSteps(doc: Option<Json>, steps: seq<Step>, show: Json -> string): Option<string>
    decreases |steps|
  {
    if steps == [] then None
    else match steps[0]
      case Arrow(name) => EvalSteps(Field(doc, name), steps[1..], show)
      case ArrowText(name) =>
        var v := Field(doc, name); if v == None then None else AsText(v.value, show)
  }

  lemma {:induction false} NullSteps(parts: seq<string>, show: Json -> string)
    requires parts != []
    ensures EvalSteps(None, ColumnSteps(parts), show) == None
    decreases |parts|
  {
    if |parts| > 1 {
      NullSteps(parts[1..], show);
      assert ColumnSteps(parts)[1..] == ColumnSteps(parts[1..]);
    }
  }

  /** The column of a dotted key is the text its path leads to, or NULL when it leads nowhere. */
  lemma {:induction false} ColumnFollowsPath(doc: Json, parts: seq<string>, show: Json -> string)
    requires parts != []
    ensures EvalSteps(Some(doc), ColumnSteps(parts), show)
         == match Follow(doc, parts) case Some(j) => AsText(j, show) case None => None
    decreases |parts|
  {
    if |parts| > 1 {
      assert ColumnSteps(parts)[1..] == ColumnSteps(parts[1..]);
      if doc.JObject? && parts[0] in doc.fields {
        ColumnFollowsPath(doc.fields[parts[0]], parts[1..], show);
      } else {
        NullSteps(parts[1..], show);
      }
    }
  }

  /** The steps from the part at `i` on. */
  function StepsFrom(parts: seq<string>, i: nat): seq<Step>
    requires i <= |parts|
  {
    if i == |parts| then [] else ColumnSteps(parts[i..])
  }

  lemma StepsNext(parts: seq<string>, i: nat)
    requires i < |parts|
    ensures StepsFrom(parts, i) ==
      [if i == |parts| - 1 then ArrowText(parts[i]) else Arrow(parts[i])] + StepsFrom(parts, i + 1)
  {
    assert parts[i..][1..] == parts[i + 1..];
  }

  /** Lines 333-355. */
  method JsonTextCol(key: string) returns (steps: seq<Step>)
    ensures steps == ColumnSteps(Split(key))
  {
    var parts := Split(key);
    if |parts| == 1 {
      return [ArrowText(parts[0])];
    }
    assert parts[0..] == parts;
    assert StepsFrom(parts, 0) == ColumnSteps(parts);
    hide ColumnSteps, StepsFrom, Split;
    steps := [];
    for i := 0 to |parts|
      invariant steps + StepsFrom(parts, i) == ColumnSteps(parts)
    {
      StepsNext(parts, i);
      var step: Step;
      if i == 0 {
        step := Arrow(parts[i]);
      } else if i == |parts| - 1 {
        step := ArrowText(parts[i]);
      } else {
        step := Arrow(parts[i]);
      }
      ThreeParts(steps, [step], StepsFrom(parts, i + 1));
      steps := steps + [step];
    }
    NoStepsLeft(parts, steps);
  }

  lemma NoStepsLeft(parts: seq<string>, steps: seq<Step>)
    ensures steps + StepsFrom(parts, |parts|) == steps
  {
  }

  // ─── escape_json_string ───

  function EscapeChar(c: char): string {
    if c == '"' then "\\\""
    else if c == '\\' then "\\\\"
    else if c == '\n' then "\\n"
    else if c == '\r' then "\\r"
    else if c == '\t' then "\\t"
    else [c]
  }

  function EscapeJson(s: string): string {
    if s == "" then "" else EscapeChar(s[0]) + EscapeJson(s[1..])
  }

  /** Lines 523-536. */
  method EscapeJsonString(s: string) returns (out: string)
    ensures out == EscapeJson(s)
  {
    out := "";
    for i := 0 to |s|
      invariant out + EscapeJson(s[i..]) == EscapeJson(s)
    {
      EscapeNext(s, i);
      hide EscapeChar, EscapeJson;
      ThreeParts(out, EscapeChar(s[i]), EscapeJson(s[i + 1..]));
      out := out + EscapeChar(s[i]);
    }
    assert s[|s|..] == "" && out + "" == out;
  }

  lemma EscapeNext(s: string, i: nat)
    requires i < |s|
    ensures EscapeJson(s[i..]) == EscapeChar(s[i]) + EscapeJson(s[i + 1..])
  {
    assert s[i..][1..] == s[i + 1..];
  }

  /** Control characters JSON text may not contain raw (section 7 of RFC 8259). */
  predicate IsControl(c: char) { c < ' ' }

  /** The string a JSON string body denotes, for the escapes the code writes; None if malformed. */
  function Unescape(t: string): Option<string>
    decreases |t|
  {
    if t == "" then Some("")
    else if t[0] == '\\' then
      if |t| == 1 then None
      else
        var c := if t[1] == '"' || t[1] == '\\' then Some(t[1])
                 else if t[1] == 'n' then Some('\n')
                 else if t[1] == 'r' then Some('\r')
                 else if t[1] == 't' then Some('\t')
                 else None;
        var rest := Unescape(t[2..]);
        if c == None || rest == None then None else Some([c.value] + rest.value)
    else if t[0] == '"' || IsControl(t[0]) then None
    else
      var rest := Unescape(t[1..]);
      if rest == None then None else Some([t[0]] + rest.value)
  }

  predicate NeedsNoOtherEscape(s: string) {
    forall i :: 0 <= i < |s| ==> !IsControl(s[i]) || s[i] == '\n' || s[i] == '\r' || s[i] == '\t'
  }

  /**
   The escaped text is a well-formed JSON string denoting the original exactly
   when the original has no control character besides newline, return and tab;
   any other control character makes it malformed.
   */
  lemma {:induction false} EscapeRoundTrip(s: string)
    ensures Unescape(EscapeJson(s)) == if NeedsNoOtherEscape(s) then Some(s) else None
  {
    if s != "" {
      EscapeRoundTrip(s[1..]);
      var t, e := EscapeJson(s), EscapeChar(s[0]);
      assert t[|e|..] == EscapeJson(s[1..]);
      assert s == [s[0]] + s[1..];
      assert NeedsNoOtherEscape(s) <==> NeedsNoOtherEscape([s[0]]) && NeedsNoOtherEscape(s[1..]);
    }
  }
}
