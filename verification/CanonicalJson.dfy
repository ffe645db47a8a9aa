/**
 * JSON Canonicalization Scheme (RFC 8785): the serializer, a reader of its output, and when two
 * values have the same canonical text. Text is a sequence of UTF-16 code units.
 */
module CanonicalJson {
  import opened Wrappers

  type Unit = x: int | 0 <= x < 0x1_0000

  type Text = seq<Unit>

  /** An integer that a double holds exactly. */
  type Integer = n: int | -0x20_0000_0000_0000 <= n <= 0x20_0000_0000_0000

  /** A JavaScript value; `Other` is anything without a JSON form, such as `undefined` or a `Date`. */
  datatype Json =
    | Null
    | Bool(flag: bool)
    | Number(n: Integer)
    | Str(text: Text)
    | Array(items: seq<Json>)
    | Object(members: seq<Member>) // in the order the keys were set
    | Other

  datatype Member = Member(key: Text, value: Json)

  // ---- order of keys ----

  /** `a < b` of strings: by UTF-16 code units. */
  predicate Less(a: Text, b: Text) {
    b != [] && (a == [] || a[0] < b[0] || (a[0] == b[0] && Less(a[1..], b[1..])))
  }

  lemma {:induction false} LessIsAnOrder(a: Text, b: Text)
    ensures !(Less(a, b) && Less(b, a)) && (a == b ==> !Less(a, b)) && (a == b || Less(a, b) || Less(b, a))
  {
    if a != [] && b != [] && a[0] == b[0] {
      LessIsAnOrder(a[1..], b[1..]);
      assert a == [a[0]] + a[1..] && b == [b[0]] + b[1..];
    }
  }

  lemma {:induction false} LessIsTransitive(a: Text, b: Text, c: Text)
    requires Less(a, b) && Less(b, c)
    ensures Less(a, c)
  {
    if a != [] && a[0] == b[0] == c[0] {
      LessIsTransitive(a[1..], b[1..], c[1..]);
    }
  }

  function Insert(m: Member, sorted: seq<Member>): seq<Member> {
    if sorted == [] || Less(m.key, sorted[0].key) then [m] + sorted else [sorted[0]] + Insert(m, sorted[1..])
  }

  /** Members ordered by key. */
  function Sort(members: seq<Member>): seq<Member> {
    if members == [] then [] else Insert(members[0], Sort(members[1..]))
  }

  // ---- serializing ----

  function Size(v: Json): nat {
    match v
    case Array(items) => 1 + SizeOfItems(items)
    case Object(members) => 1 + SizeOfMembers(members)
    case _ => 1
  }

  function SizeOfItems(items: seq<Json>): nat {
    if items == [] then 0 else 1 + Size(items[0]) + SizeOfItems(items[1..])
  }

  function SizeOfMembers(members: seq<Member>): nat {
    if members == [] then 0 else 1 + Size(members[0].value) + SizeOfMembers(members[1..])
  }

  lemma {:induction false} InsertSize(m: Member, sorted: seq<Member>)
    ensures SizeOfMembers(Insert(m, sorted)) == 1 + Size(m.value) + SizeOfMembers(sorted)
  {
    var r := Insert(m, sorted);
    if sorted != [] && !Less(m.key, sorted[0].key) {
      InsertSize(m, sorted[1..]);
      assert r[1..] == Insert(m, sorted[1..]);
    } else {
      assert r[1..] == sorted;
    }
  }

  lemma {:induction false} SortSize(members: seq<Member>)
    ensures SizeOfMembers(Sort(members)) == SizeOfMembers(members)
  {
    if members != [] {
      SortSize(members[1..]);
      InsertSize(members[0], Sort(members[1..]));
    }
  }

  const NULL: Text := [110, 117, 108, 108]
  const TRUE: Text := [116, 114, 117, 101]
  const FALSE: Text := [102, 97, 108, 115, 101]
  const QUOTE: Unit := 34
  const BACKSLASH: Unit := 92
  const COMMA: Unit := 44
  const COLON: Unit := 58
  const OPEN_BRACKET: Unit := 91
  const CLOSE_BRACKET: Unit := 93
  const OPEN_BRACE: Unit := 123
  const CLOSE_BRACE: Unit := 125
  const MINUS: Unit := 45

  /** A surrogate without its other half. */
  predicate HasLoneSurrogate(s: Text) {
    s != [] &&
    if 0xD800 <= s[0] < 0xDC00 && |s| > 1 && 0xDC00 <= s[1] < 0xE000 then HasLoneSurrogate(s[2..])
    else 0xD800 <= s[0] < 0xE000 || HasLoneSurrogate(s[1..])
  }

  function Digit(n: nat): Unit
    requires n < 10
  {
    48 + n
  }

  function Decimal(n: nat): Text {
    if n < 10 then [Digit(n)] else Decimal(n / 10) + [Digit(n % 10)]
  }

  function HexDigit(n: nat): Unit
    requires n < 16
  {
    if n < 10 then 48 + n else 87 + n
  }

  /** The shortest escape of a code unit; only what section 3.2.2.2 asks for is escaped. */
  function Escaped(u: Unit): Text {
    if u == QUOTE || u == BACKSLASH then [BACKSLASH, u]
    else if u == 8 then [BACKSLASH, 98]
    else if u == 12 then [BACKSLASH, 102]
    else if u == 10 then [BACKSLASH, 110]
    else if u == 13 then [BACKSLASH, 114]
    else if u == 9 then [BACKSLASH, 116]
    else if u < 32 then [BACKSLASH, 117, 48, 48, HexDigit(u / 16), HexDigit(u % 16)]
    else [u]
  }

  function EscapedAll(s: Text): Text {
    if s == [] then [] else Escaped(s[0]) + EscapedAll(s[1..])
  }

  function Quoted(s: Text): Text { [QUOTE] + EscapedAll(s) + [QUOTE] }

  /** `JSON.stringify` of an integer. */
  function NumberText(n: int): Text {
    if n < 0 then [MINUS] + Decimal(-n) else Decimal(n)
  }

  function SerializeString(s: Text): Option<Text> {
    if HasLoneSurrogate(s) then None else Some(Quoted(s))
  }

  function Comma(rest: Text): Text {
    if rest == [] then [] else [COMMA] + rest
  }

  /** `canonicalize`; `None` when it throws. */
  function Serialize(v: Json): Option<Text>
    decreases Size(v)
  {
    match v
    case Null => Some(NULL)
    case Bool(flag) => Some(if flag then TRUE else FALSE)
    case Number(n) => Some(NumberText(n))
    case Str(text) => SerializeString(text)
    case Array(items) =>
      var body :- SerializeItems(items);
      Some([OPEN_BRACKET] + body + [CLOSE_BRACKET])
    case Object(members) =>
      SortSize(members);
      var body :- SerializeMembers(Sort(members));
      Some([OPEN_BRACE] + body + [CLOSE_BRACE])
    case Other => None
  }

  function SerializeItems(items: seq<Json>): Option<Text>
    decreases SizeOfItems(items)
  {
    if items == [] then Some([]) else
    var first :- Serialize(items[0]);
    var rest :- SerializeItems(items[1..]);
    Some(first + Comma(rest))
  }

  function SerializeMembers(members: seq<Member>): Option<Text>
    decreases SizeOfMembers(members)
  {
    if members == [] then Some([]) else
    var key :- SerializeString(members[0].key);
    var value :- Serialize(members[0].value);
    var rest :- SerializeMembers(members[1..]);
    Some(key + [COLON] + value + Comma(rest))
  }

  // ---- what a value means ----

  /** The values that have a canonical text; keys of an object are distinct. */
  ghost predicate IsJson(v: Json)
    decreases Size(v)
  {
    match v
    case Str(text) => !HasLoneSurrogate(text)
    case Array(items) => AllJson(items)
    case Object(members) => AllMembersJson(members)
    case Other => false
    case _ => true
  }

  ghost predicate AllJson(items: seq<Json>)
    decreases SizeOfItems(items)
  {
    items == [] || (IsJson(items[0]) && AllJson(items[1..]))
  }

  ghost predicate AllMembersJson(members: seq<Member>)
    decreases SizeOfMembers(members)
  {
    members == [] || (!HasLoneSurrogate(members[0].key) && IsJson(members[0].value) && AllMembersJson(members[1..]))
  }

  ghost predicate DistinctKeys(members: seq<Member>) {
    forall i, j :: 0 <= i < j < |members| ==> members[i].key != members[j].key
  }

  /** As JavaScript has it, no object holds a key twice. */
  ghost predicate Proper(v: Json)
    decreases Size(v)
  {
    match v
    case Array(items) => AllProper(items)
    case Object(members) => DistinctKeys(members) && AllMembersProper(members)
    case _ => true
  }

  ghost predicate AllProper(items: seq<Json>)
    decreases SizeOfItems(items)
  {
    items == [] || (Proper(items[0]) && AllProper(items[1..]))
  }

  ghost predicate AllMembersProper(members: seq<Member>)
    decreases SizeOfMembers(members)
  {
    members == [] || (Proper(members[0].value) && AllMembersProper(members[1..]))
  }

  lemma {:induction false} ItemIsSmaller(items: seq<Json>, i: nat)
    requires i < |items|
    ensures Size(items[i]) < SizeOfItems(items)
  {
    if i > 0 {
      ItemIsSmaller(items[1..], i - 1);
    }
  }

  lemma {:induction false} MemberIsSmaller(members: seq<Member>, i: nat)
    requires i < |members|
    ensures Size(members[i].value) < SizeOfMembers(members)
  {
    if i > 0 {
      MemberIsSmaller(members[1..], i - 1);
    }
  }

  /** Equal as JSON values: arrays item by item, objects key by key in whatever order. */
  ghost predicate Same(a: Json, b: Json)
    decreases Size(a), 0
  {
    match (a, b)
    case (Array(s), Array(t)) =>
      |s| == |t| && forall i :: 0 <= i < |s| ==> (ItemIsSmaller(s, i); Same(s[i], t[i]))
    case (Object(m), Object(n)) =>
      && (forall i :: 0 <= i < |m| ==> (MemberIsSmaller(m, i); HeldIn(m[i], n)))
      && (forall j :: 0 <= j < |n| ==> HasKey(m, n[j].key))
    case _ => a == b
  }

  /** The object holds the member's key with an equal value. */
  ghost predicate HeldIn(m: Member, members: seq<Member>)
    decreases Size(m.value), 1
  {
    exists j :: 0 <= j < |members| && members[j].key == m.key && Same(m.value, members[j].value)
  }

  predicate HasKey(members: seq<Member>, key: Text) {
    exists i :: 0 <= i < |members| && members[i].key == key
  }
}
