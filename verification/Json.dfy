/** JSON documents and the two operations of JSON Patch that the webhook emits: `add`
    (section 4.1 of RFC 6902) and `replace` (section 4.3), at a path given as its reference
    tokens (section 4 of RFC 6901). */
module Json {
  import opened Wrappers
  import opened Text

  datatype Json =
    | JNull
    | JBool(b: bool)
    | JNumber(n: int)
    | JString(s: string)
    | JArray(items: seq<Json>)
    | JObject(members: map<string, Json>)

  datatype Op = Add | Replace

  datatype Patch = Patch(op: Op, path: seq<string>, value: Json)

  // ----- array indices as tokens

  /** Digits without a leading zero. */
  function Index(token: string): Option<nat> {
    if token == [] || (token[0] == '0' && |token| > 1) then None else DigitsValue(token)
  }

  lemma DecimalIsIndex(n: nat)
    ensures Index(Decimal(n)) == Some(n) && Decimal(n) != "-"
  {
    DecimalValue(n);
    if n >= 10 { assert |Decimal(n)| > 1; }
  }

  // ----- applying a patch

  function ApplyHere(target: Json, op: Op, token: string, v: Json): Option<Json> {
    match target
    case JObject(m) =>
      if op.Add? || token in m then Some(JObject(m[token := v])) else None
    case JArray(items) =>
      if token == "-" then (if op.Add? then Some(JArray(items + [v])) else None)
      else
        var i := Index(token);
        if i.None? then None
        else if op.Add? && i.value <= |items| then Some(JArray(items[..i.value] + [v] + items[i.value..]))
        else if op.Replace? && i.value < |items| then Some(JArray(items[i.value := v]))
        else None
    case _ => None
  }

  function Apply(doc: Json, op: Op, path: seq<string>, v: Json): Option<Json>
    decreases |path|
  {
    if path == [] then Some(v)
    else if |path| == 1 then ApplyHere(doc, op, path[0], v)
    else match doc
      case JObject(m) =>
        if path[0] !in m then None
        else (match Apply(m[path[0]], op, path[1..], v)
          case None => None
          case Some(c) => Some(JObject(m[path[0] := c])))
      case JArray(items) =>
        var i := Index(path[0]);
        if i.None? || i.value >= |items| then None
        else (match Apply(items[i.value], op, path[1..], v)
          case None => None
          case Some(c) => Some(JArray(items[i.value := c])))
      case _ => None
  }

  function ApplyAll(doc: Json, patches: seq<Patch>): Option<Json>
    decreases |patches|
  {
    if patches == [] then Some(doc)
    else match Apply(doc, patches[0].op, patches[0].path, patches[0].value)
      case None => None
      case Some(d) => ApplyAll(d, patches[1..])
  }

  lemma {:induction false} ApplyAllConcat(doc: Json, a: seq<Patch>, b: seq<Patch>)
    ensures ApplyAll(doc, a + b) == match ApplyAll(doc, a) case None => None case Some(d) => ApplyAll(d, b)
    decreases |a|
  {
    if a == [] {
      assert a + b == b;
    } else {
      assert (a + b)[0] == a[0] && (a + b)[1..] == a[1..] + b;
      match Apply(doc, a[0].op, a[0].path, a[0].value)
      case None =>
      case Some(d) => ApplyAllConcat(d, a[1..], b);
    }
  }

  // ----- members of nested objects

  /** The value below a chain of object members. */
  function Member(doc: Json, path: seq<string>): Option<Json> {
    if path == [] then Some(doc)
    else if doc.JObject? && path[0] in doc.members then Member(doc.members[path[0]], path[1..])
    else None
  }

  /** The same document with the value below that chain exchanged. */
  function WithMember(doc: Json, path: seq<string>, v: Json): Json
    requires Member(doc, path).Some?
  {
    if path == [] then v
    else JObject(doc.members[path[0] := WithMember(doc.members[path[0]], path[1..], v)])
  }

  /** An operation below an object member is that operation on the member's value. */
  lemma {:induction false} ApplyBelow(doc: Json, base: seq<string>, op: Op, rest: seq<string>, v: Json)
    requires Member(doc, base).Some? && rest != []
    ensures Apply(doc, op, base + rest, v) == match Apply(Member(doc, base).value, op, rest, v)
      case None => None
      case Some(y) => Some(WithMember(doc, base, y))
    decreases |base|
  {
    if base == [] {
      assert base + rest == rest;
    } else {
      assert (base + rest)[0] == base[0] && (base + rest)[1..] == base[1..] + rest;
      ApplyBelow(doc.members[base[0]], base[1..], op, rest, v);
    }
  }

  lemma {:induction false} MemberOfWithMember(doc: Json, path: seq<string>, v: Json, rest: seq<string>)
    requires Member(doc, path).Some?
    ensures Member(WithMember(doc, path, v), path + rest) == Member(v, rest)
    decreases |path|
  {
    if path == [] {
      assert path + rest == rest;
    } else {
      assert (path + rest)[0] == path[0] && (path + rest)[1..] == path[1..] + rest;
      MemberOfWithMember(doc.members[path[0]], path[1..], v, rest);
    }
  }

  lemma {:induction false} WithMemberTwice(doc: Json, path: seq<string>, v: Json, w: Json)
    requires Member(doc, path).Some?
    ensures Member(WithMember(doc, path, v), path).Some?
    ensures WithMember(WithMember(doc, path, v), path, w) == WithMember(doc, path, w)
  {
    if path != [] {
      WithMemberTwice(doc.members[path[0]], path[1..], v, w);
    }
  }

  lemma {:induction false} WithSameMember(doc: Json, path: seq<string>)
    requires Member(doc, path).Some?
    ensures WithMember(doc, path, Member(doc, path).value) == doc
  {
    if path != [] {
      WithSameMember(doc.members[path[0]], path[1..]);
      assert doc.members[path[0] := doc.members[path[0]]] == doc.members;
    }
  }
}
