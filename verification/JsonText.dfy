/**
  JSON text as sections 2, 4, 5 and 7 of RFC 8259 lay it out, with any
  whitespace between tokens, and what the scanner makes of it.
 */
module JsonText {
  import opened Basics
  import opened BalancedJson

  /** A character of a string: itself, or a backslash and the character after it. */
  datatype StringChar = Plain(c: char) | Escaped(e: char)

  /** Scalars other than strings are plain text; the gaps hold the whitespace as printed. */
  datatype Value =
    | Scalar(text: string)
    | Text(chars: seq<StringChar>)
    | Array(gap: string, items: Items)
    | Object(inner: string, members: Members)

  datatype Items = NoItems | Item(before: string, value: Value, after: string, more: Items)

  datatype Members =
    | NoMembers
    | Member(lead: string, key: seq<StringChar>, beforeColon: string, afterColon: string, held: Value, trail: string, others: Members)

  function RenderChar(one: StringChar): string {
    match one case Plain(c) => [c] case Escaped(e) => ['\\', e]
  }

  function RenderChars(chars: seq<StringChar>): string {
    if chars == [] then "" else RenderChar(chars[0]) + RenderChars(chars[1..])
  }

  function RenderText(chars: seq<StringChar>): string {
    "\"" + RenderChars(chars) + "\""
  }

  function Render(v: Value): string {
    match v
    case Scalar(text) => text
    case Text(chars) => RenderText(chars)
    case Array(gap, items) => "[" + gap + RenderItems(items) + "]"
    case Object(inner, members) => "{" + inner + RenderMembers(members) + "}"
  }

  function RenderItems(items: Items): string {
    match items
    case NoItems => ""
    case Item(before, value, after, more) =>
      before + Render(value) + after + (if more.NoItems? then "" else "," + RenderItems(more))
  }

  function RenderMembers(members: Members): string {
    match members
    case NoMembers => ""
    case Member(lead, key, beforeColon, afterColon, held, trail, others) =>
      lead + RenderText(key) + beforeColon + ":" + afterColon + Render(held) + trail
      + (if others.NoMembers? then "" else "," + RenderMembers(others))
  }

  predicate Space(c: char) {
    c == ' ' || c == '\t' || c == '\n' || c == '\r'
  }

  predicate Gap(s: string) {
    forall i | 0 <= i < |s| :: Space(s[i])
  }

  /** Characters that numbers and the three literal names are made of. */
  predicate ScalarChar(c: char) {
    ('0' <= c <= '9') || ('a' <= c <= 'z') || c == '+' || c == '-' || c == '.' || c == 'E'
  }

  predicate ValidChars(chars: seq<StringChar>) {
    forall i | 0 <= i < |chars| :: chars[i].Plain? ==> chars[i].c != '"' && chars[i].c != '\\'
  }

  /** Printed JSON, and a little more: the scanner does not need scalars to be numbers or names. */
  predicate Valid(v: Value) {
    match v
    case Scalar(text) => text != "" && forall i | 0 <= i < |text| :: ScalarChar(text[i])
    case Text(chars) => ValidChars(chars)
    case Array(gap, items) => Gap(gap) && ValidItems(items)
    case Object(inner, members) => Gap(inner) && ValidMembers(members)
  }

  predicate ValidItems(items: Items) {
    items.Item? ==> Gap(items.before) && Valid(items.value) && Gap(items.after) && ValidItems(items.more)
  }

  predicate ValidMembers(members: Members) {
    members.Member? ==>
      && Gap(members.lead) && ValidChars(members.key) && Gap(members.beforeColon) && Gap(members.afterColon)
      && Valid(members.held) && Gap(members.trail) && ValidMembers(members.others)
  }

  // ----- The scanner passes over printed text -----

  function In(depth: int): Scan {
    Scan(depth, false, false)
  }

  predicate Inert(s: string) {
    forall i | 0 <= i < |s| :: s[i] != '"' && s[i] != '{' && s[i] != '}'
  }

  /** The scanner passes over x and is as before. */
  predicate Passes(x: string, s: Scan, rest: string) {
    Consume(x + rest, s) == Later(|x|, Consume(rest, s))
  }

  lemma {:induction false} PassTwo(x: string, y: string, s: Scan, rest: string)
    requires Passes(x, s, y + rest) && Passes(y, s, rest)
    ensures Passes(x + y, s, rest)
  {
    assert (x + y) + rest == x + (y + rest);
  }

  /** Outside strings the scanner passes over x without changing its depth. */
  predicate Skips(x: string, depth: int, rest: string) {
    Passes(x, In(depth), rest)
  }

  lemma {:induction false} SkipInert(x: string, depth: int, rest: string)
    requires Inert(x)
    ensures Skips(x, depth, rest)
  {
    if x == "" {
      assert x + rest == rest;
    } else {
      assert (x + rest)[0] == x[0] && (x + rest)[1..] == x[1..] + rest;
      SkipInert(x[1..], depth, rest);
    }
  }

  /** Inside a string the scanner passes over one printed character. */
  lemma {:induction false} SkipChar(one: StringChar, depth: int, rest: string)
    requires one.Plain? ==> one.c != '"' && one.c != '\\'
    ensures Passes(RenderChar(one), Scan(depth, true, false), rest)
  {
    var x := RenderChar(one) + rest;
    match one
    case Plain(_) =>
      assert x[1..] == rest;
    case Escaped(e) =>
      assert x[1..] == [e] + rest && ([e] + rest)[1..] == rest;
      assert Consume(x[1..], Scan(depth, true, true)) == Later(1, Consume(rest, Scan(depth, true, false)));
  }

  lemma {:induction false} SkipChars(chars: seq<StringChar>, depth: int, rest: string)
    requires ValidChars(chars)
    ensures Passes(RenderChars(chars), Scan(depth, true, false), rest)
  {
    if chars == [] {
      assert "" + rest == rest;
    } else {
      SkipChars(chars[1..], depth, rest);
      SkipChar(chars[0], depth, RenderChars(chars[1..]) + rest);
      PassTwo(RenderChar(chars[0]), RenderChars(chars[1..]), Scan(depth, true, false), rest);
    }
  }

  lemma {:induction false} SkipText(chars: seq<StringChar>, depth: int, rest: string)
    requires ValidChars(chars)
    ensures Skips(RenderText(chars), depth, rest)
  {
    var inside := RenderChars(chars);
    assert RenderText(chars) + rest == ['"'] + (inside + (['"'] + rest));
    SkipChars(chars, depth, ['"'] + rest);
    assert (['"'] + (inside + (['"'] + rest)))[1..] == inside + (['"'] + rest);
    assert (['"'] + rest)[1..] == rest;
  }

  lemma {:induction false} SkipTwo(x: string, y: string, depth: int, rest: string)
    requires Skips(x, depth, y + rest) && Skips(y, depth, rest)
    ensures Skips(x + y, depth, rest)
  {
    PassTwo(x, y, In(depth), rest);
  }

  lemma {:induction false} SkipFour(a: string, b: string, c: string, d: string, depth: int, rest: string)
    requires Skips(a, depth, (b + (c + d)) + rest) && Skips(b, depth, (c + d) + rest) && Skips(c, depth, d + rest) && Skips(d, depth, rest)
    ensures Skips(a + (b + (c + d)), depth, rest)
  {
    SkipTwo(c, d, depth, rest);
    SkipTwo(b, c + d, depth, rest);
    SkipTwo(a, b + (c + d), depth, rest);
  }

  /** Between braces one level deeper, then the closing brace. */
  lemma {:induction false} SkipBraces(inside: string, depth: int, rest: string)
    requires Skips(inside, depth + 1, "}" + rest) && depth > 0
    ensures Skips("{" + inside + "}", depth, rest)
  {
    var x := "{" + inside + "}";
    assert x + rest == ['{'] + (inside + ("}" + rest));
    assert (['{'] + (inside + ("}" + rest)))[1..] == inside + ("}" + rest);
    assert ("}" + rest)[1..] == rest;
  }

  /** Inside an object, a printed value leaves the depth as it was. */
  lemma {:induction false} SkipValue(v: Value, depth: int, rest: string)
    requires Valid(v) && depth > 0
    ensures Skips(Render(v), depth, rest)
    decreases v, 1
  {
    match v
    case Scalar(text) => SkipInert(text, depth, rest);
    case Text(chars) => SkipText(chars, depth, rest);
    case Array(gap, items) => SkipArray(gap, items, depth, rest);
    case Object(inner, members) =>
      SkipInside(inner, members, depth + 1, "}" + rest);
      SkipBraces(inner + RenderMembers(members), depth, rest);
      assert Render(v) == "{" + (inner + RenderMembers(members)) + "}";
  }

  lemma {:induction false} SkipArray(gap: string, items: Items, depth: int, rest: string)
    requires Gap(gap) && ValidItems(items) && depth > 0
    ensures Skips(Render(Array(gap, items)), depth, rest)
    decreases items, 1
  {
    SkipInert("]", depth, rest);
    SkipItems(items, depth, "]" + rest);
    SkipTwo(RenderItems(items), "]", depth, rest);
    var inside := RenderItems(items) + "]";
    SkipInert("[" + gap, depth, inside + rest);
    SkipTwo("[" + gap, inside, depth, rest);
    assert Render(Array(gap, items)) == ("[" + gap) + inside;
  }

  /** What stands between an object's braces. */
  lemma {:induction false} SkipInside(inner: string, members: Members, depth: int, rest: string)
    requires Gap(inner) && ValidMembers(members) && depth > 0
    ensures Skips(inner + RenderMembers(members), depth, rest)
    decreases members, 1
  {
    SkipMembers(members, depth, rest);
    SkipInert(inner, depth, RenderMembers(members) + rest);
    SkipTwo(inner, RenderMembers(members), depth, rest);
  }

  lemma {:induction false} SkipEmpty(depth: int, rest: string)
    ensures Skips("", depth, rest)
  {
    assert "" + rest == rest;
  }

  lemma {:induction false} SkipComma(x: string, depth: int, rest: string)
    requires Skips(x, depth, rest)
    ensures Skips("," + x, depth, rest)
  {
    SkipInert(",", depth, x + rest);
    SkipTwo(",", x, depth, rest);
  }

  function MoreItems(items: Items): string {
    if items.NoItems? then "" else "," + RenderItems(items)
  }

  lemma {:induction false} ItemParts(items: Items)
    requires items.Item?
    ensures RenderItems(items) == items.before + (Render(items.value) + (items.after + MoreItems(items.more)))
  {
  }

  lemma {:induction false} SkipItems(items: Items, depth: int, rest: string)
    requires ValidItems(items) && depth > 0
    ensures Skips(RenderItems(items), depth, rest)
    decreases items, 0
  {
    if items.NoItems? {
      SkipEmpty(depth, rest);
    } else {
      var value, tail := Render(items.value), MoreItems(items.more);
      if items.more.NoItems? {
        SkipEmpty(depth, rest);
      } else {
        SkipItems(items.more, depth, rest);
        SkipComma(RenderItems(items.more), depth, rest);
      }
      SkipInert(items.after, depth, tail + rest);
      SkipValue(items.value, depth, (items.after + tail) + rest);
      SkipInert(items.before, depth, (value + (items.after + tail)) + rest);
      SkipFour(items.before, value, items.after, tail, depth, rest);
      ItemParts(items);
    }
  }

  function MoreMembers(members: Members): string {
    if members.NoMembers? then "" else "," + RenderMembers(members)
  }

  lemma {:induction false} MemberParts(m: Members)
    requires m.Member?
    ensures RenderMembers(m)
            == (m.lead + RenderText(m.key)) + ((m.beforeColon + ":" + m.afterColon) + (Render(m.held) + (m.trail + MoreMembers(m.others))))
  {
  }

  lemma {:induction false} SkipMembers(members: Members, depth: int, rest: string)
    requires ValidMembers(members) && depth > 0
    ensures Skips(RenderMembers(members), depth, rest)
    decreases members, 0
  {
    if members.NoMembers? {
      SkipEmpty(depth, rest);
    } else {
      var m := members;
      var key, colon, value, end := m.lead + RenderText(m.key), m.beforeColon + ":" + m.afterColon, Render(m.held), m.trail + MoreMembers(m.others);
      if m.others.NoMembers? {
        SkipEmpty(depth, rest);
      } else {
        SkipMembers(m.others, depth, rest);
        SkipComma(RenderMembers(m.others), depth, rest);
      }
      SkipInert(m.trail, depth, MoreMembers(m.others) + rest);
      SkipTwo(m.trail, MoreMembers(m.others), depth, rest);
      SkipValue(m.held, depth, end + rest);
      SkipInert(colon, depth, (value + end) + rest);
      SkipKey(m.lead, m.key, depth, (colon + (value + end)) + rest);
      SkipFour(key, colon, value, end, depth, rest);
      MemberParts(m);
    }
  }

  lemma {:induction false} SkipKey(lead: string, key: seq<StringChar>, depth: int, rest: string)
    requires Gap(lead) && ValidChars(key)
    ensures Skips(lead + RenderText(key), depth, rest)
  {
    SkipText(key, depth, rest);
    SkipInert(lead, depth, RenderText(key) + rest);
    SkipTwo(lead, RenderText(key), depth, rest);
  }

  /** From its opening brace, a printed object is consumed exactly. */
  lemma {:induction false} ObjectIsConsumed(v: Value, rest: string)
    requires v.Object? && Valid(v)
    ensures Consume(Render(v) + rest, START) == Some(|Render(v)|) && Render(v)[0] == '{'
  {
    var inside := v.inner + RenderMembers(v.members);
    SkipInside(v.inner, v.members, 1, "}" + rest);
    assert Render(v) + rest == ['{'] + (inside + ("}" + rest));
    assert (['{'] + (inside + ("}" + rest)))[1..] == inside + ("}" + rest);
  }

  // ----- Objects in prose -----

  /** Prose, then each object and the prose after it. */
  function InProse(lead: string, objects: seq<(Value, string)>): string
    decreases |objects|
  {
    if objects == [] then lead else lead + (Render(objects[0].0) + InProse(objects[0].1, objects[1..]))
  }

  predicate Braceless(s: string) {
    '{' !in s
  }

  lemma {:induction false} SkipProse(prose: string, rest: string)
    requires Braceless(prose)
    ensures Candidates(prose + rest) == Candidates(rest)
  {
    if prose == "" {
      assert prose + rest == rest;
    } else {
      assert (prose + rest)[0] == prose[0] && (prose + rest)[1..] == prose[1..] + rest;
      assert prose[0] in prose && forall c | c in prose[1..] :: c in prose;
      SkipProse(prose[1..], rest);
    }
  }

  /** Any printed objects in prose without an opening brace are found, all of them, in order, and nothing else. */
  lemma {:induction false} ObjectsAreFound(lead: string, objects: seq<(Value, string)>)
    requires Braceless(lead)
    requires forall i | 0 <= i < |objects| :: objects[i].0.Object? && Valid(objects[i].0) && Braceless(objects[i].1)
    ensures Candidates(InProse(lead, objects)) == seq(|objects|, i requires 0 <= i < |objects| => Render(objects[i].0))
    decreases |objects|
  {
    if objects == [] {
      SkipProse(lead, "");
      assert lead + "" == lead;
    } else {
      var v, after := objects[0].0, InProse(objects[0].1, objects[1..]);
      SkipProse(lead, Render(v) + after);
      ObjectIsConsumed(v, after);
      assert (Render(v) + after)[..|Render(v)|] == Render(v) && (Render(v) + after)[|Render(v)|..] == after;
      ObjectsAreFound(objects[0].1, objects[1..]);
    }
  }
}
