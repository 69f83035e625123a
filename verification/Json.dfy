// JSON trees: the field lookups of `unstructured`, and JSON Patch (RFC 6902) with JSON Pointers (RFC 6901) given as
// lists of reference tokens.
module Json {
  import opened Names

  datatype Json =
    | Null | Bool(flag: bool) | Num(value: int) | Str(text: string)
    | Arr(items: seq<Json>) | Obj(fields: map<string, Json>)

  type Path = seq<string>

  // ---- Lookups: Absent is "not found", Bad is an error ----

  datatype Lookup<+T> = Absent | Bad | Here(value: T)

  function Field(doc: Json, path: Path): Lookup<Json> {
    if path == [] then Here(doc)
    else match doc
      case Null => Absent
      case Obj(fields) => if path[0] in fields then Field(fields[path[0]], path[1..]) else Absent
      case _ => Bad
  }

  function NestedString(doc: Json, path: Path): Lookup<string> {
    match Field(doc, path)
    case Absent => Absent
    case Here(Str(text)) => Here(text)
    case _ => Bad
  }

  function NestedSlice(doc: Json, path: Path): Lookup<seq<Json>> {
    match Field(doc, path)
    case Absent => Absent
    case Here(Arr(items)) => Here(items)
    case _ => Bad
  }

  function NestedMap(doc: Json, path: Path): Lookup<map<string, Json>> {
    match Field(doc, path)
    case Absent => Absent
    case Here(Obj(fields)) => Here(fields)
    case _ => Bad
  }

  predicate AllStrings(fields: map<string, Json>) { forall k :: k in fields ==> fields[k].Str? }

  function Texts(fields: map<string, Json>): map<string, string>
    requires AllStrings(fields)
  {
    map k | k in fields :: fields[k].text
  }

  function FromTexts(texts: map<string, string>): Json { Obj(map k | k in texts :: Str(texts[k])) }

  function NestedStringMap(doc: Json, path: Path): Lookup<map<string, string>> {
    match NestedMap(doc, path)
    case Absent => Absent
    case Bad => Bad
    case Here(fields) => if AllStrings(fields) then Here(Texts(fields)) else Bad
  }

  lemma TextsRoundTrip(texts: map<string, string>)
    ensures AllStrings(FromTexts(texts).fields) && Texts(FromTexts(texts).fields) == texts
  {}

  // ---- JSON Patch ----

  datatype Op = Add(path: Path, value: Json) | Replace(path: Path, value: Json)

  predicate Digits(token: string) { forall i :: 0 <= i < |token| ==> '0' <= token[i] <= '9' }

  function Number(token: string): nat
    requires Digits(token)
  {
    if token == "" then 0
    else Number(token[..|token| - 1]) * 10 + (token[|token| - 1] as int - '0' as int)
  }

  // An array index: digits without leading zeros (RFC 6901, section 4).
  function Index(token: string): Option<nat> {
    if token != "" && Digits(token) && (|token| > 1 ==> token[0] != '0') then Some(Number(token)) else None
  }

  // The member of an object or the element of an array that a token refers to.
  function Child(doc: Json, token: string): Option<Json> {
    match doc
    case Obj(fields) => if token in fields then Some(fields[token]) else None
    case Arr(items) =>
      var i := Index(token);
      if i.Some? && i.value < |items| then Some(items[i.value]) else None
    case _ => None
  }

  function WithChild(doc: Json, token: string, child: Json): Json
    requires Child(doc, token).Some?
  {
    match doc
    case Obj(fields) => Obj(fields[token := child])
    case Arr(items) => Arr(items[Index(token).value := child])
  }

  // RFC 6902, section 4.1: a member is added or replaced, an element inserted, "-" appends.
  function AddHere(doc: Json, token: string, v: Json): Option<Json> {
    match doc
    case Obj(fields) => Some(Obj(fields[token := v]))
    case Arr(items) =>
      var i := if token == "-" then Some(|items|) else Index(token);
      if i.Some? && i.value <= |items| then Some(Arr(items[..i.value] + [v] + items[i.value..])) else None
    case _ => None
  }

  // RFC 6902, section 4.3: the target must exist.
  function ReplaceHere(doc: Json, token: string, v: Json): Option<Json> {
    if Child(doc, token).Some? then Some(WithChild(doc, token, v)) else None
  }

  function At(doc: Json, op: Op, path: Path): Option<Json>
    decreases |path|
  {
    if path == [] then Some(op.value)
    else if |path| == 1 then
      if op.Add? then AddHere(doc, path[0], op.value) else ReplaceHere(doc, path[0], op.value)
    else
      var child := Child(doc, path[0]);
      if child.None? then None
      else
        var changed := At(child.value, op, path[1..]);
        if changed.None? then None else Some(WithChild(doc, path[0], changed.value))
  }

  // None is a patch that fails.
  function Apply(doc: Json, ops: seq<Op>): Option<Json>
    decreases |ops|
  {
    if ops == [] then Some(doc)
    else
      var changed := At(doc, ops[0], ops[0].path);
      if changed.None? then None else Apply(changed.value, ops[1..])
  }

  lemma {:induction false} ApplyAppend(doc: Json, ops: seq<Op>, more: seq<Op>)
    ensures Apply(doc, ops + more) == (if Apply(doc, ops).None? then None else Apply(Apply(doc, ops).value, more))
    decreases |ops|
  {
    if ops == [] {
      assert ops + more == more;
    } else {
      assert (ops + more)[0] == ops[0] && (ops + more)[1..] == ops[1..] + more;
      var changed := At(doc, ops[0], ops[0].path);
      if changed.Some? { ApplyAppend(changed.value, ops[1..], more); }
    }
  }

  // ---- What a patch operation changes ----

  // Neither path leads through the other.
  predicate Apart(p: Path, q: Path) { exists i :: 0 <= i < |p| && i < |q| && p[i] != q[i] }

  predicate HasObject(doc: Json, path: Path) { Field(doc, path).Here? && Field(doc, path).value.Obj? }

  lemma ApartTail(p: Path, q: Path)
    requires Apart(p, q) && p[0] == q[0]
    ensures |p| > 1 && |q| > 1 && Apart(p[1..], q[1..])
  {
    var i :| 0 <= i < |p| && i < |q| && p[i] != q[i];
    assert p[1..][i - 1] != q[1..][i - 1];
  }

  // An operation below an object succeeds, and its value is found where it was put.
  lemma {:induction false} PutBelow(doc: Json, op: Op, path: Path, rest: Path)
    requires path != [] && HasObject(doc, path[..|path| - 1])
    requires op.Add? || Field(doc, path).Here?
    ensures At(doc, op, path).Some?
    ensures Field(At(doc, op, path).value, path + rest) == Field(op.value, rest)
    decreases |path|
  {
    assert (path + rest)[0] == path[0] && (path + rest)[1..] == path[1..] + rest;
    if |path| == 1 {
      assert path[1..] + rest == rest && path[..0] == [];
    } else {
      assert path[..|path| - 1][0] == path[0] && path[..|path| - 1][1..] == path[1..][..|path| - 2];
      var child := Child(doc, path[0]).value;
      PutBelow(child, op, path[1..], rest);
    }
  }

  // What lies apart from the path stays; arrays count as one value here.
  lemma {:induction false} ElsewhereStays(doc: Json, op: Op, path: Path, q: Path)
    requires Apart(path, q) && At(doc, op, path).Some?
    ensures Field(At(doc, op, path).value, q) == Field(doc, q)
    decreases |path|
  {
    if path[0] == q[0] {
      ApartTail(path, q);
      var child := Child(doc, path[0]);
      if doc.Obj? { ElsewhereStays(child.value, op, path[1..], q[1..]); }
    }
  }

  // Objects on the way to the path are still objects.
  lemma {:induction false} AboveStaysObject(doc: Json, op: Op, path: Path, n: nat)
    requires n < |path| && HasObject(doc, path[..n]) && At(doc, op, path).Some?
    ensures HasObject(At(doc, op, path).value, path[..n])
    decreases |path|
  {
    if n > 0 {
      assert path[..n][0] == path[0] && path[..n][1..] == path[1..][..n - 1];
      AboveStaysObject(Child(doc, path[0]).value, op, path[1..], n - 1);
    }
  }

  lemma {:induction false} PrefixIsObject(doc: Json, path: Path, n: nat)
    requires n < |path| && Field(doc, path).Here?
    ensures HasObject(doc, path[..n])
    decreases n
  {
    if n > 0 {
      assert path[..n][0] == path[0] && path[..n][1..] == path[1..][..n - 1];
      PrefixIsObject(doc.fields[path[0]], path[1..], n - 1);
    }
  }
}
