/** The canonical text of a value identifies it: a reader recovers it, and key order does not show. */
module CanonicalTheorems {
  import opened Wrappers
  import opened CanonicalJson

  // ---- a reader of the canonical grammar ----

  datatype Read<T> = Read(value: T, rest: Text)

  predicate IsDigit(u: Unit) { 48 <= u <= 57 }

  function DigitsOf(s: Text): (r: Text)
    ensures r <= s
  {
    if s == [] || !IsDigit(s[0]) then [] else [s[0]] + DigitsOf(s[1..])
  }

  function Value(digits: Text): int {
    if digits == [] then 0 else 10 * Value(digits[..|digits| - 1]) + digits[|digits| - 1] - 48
  }

  function ParseNumber(s: Text): (r: Option<Read<Json>>)
    ensures r.Some? ==> |r.value.rest| < |s|
  {
    var negative := s != [] && s[0] == MINUS;
    var digits := DigitsOf(if negative then s[1..] else s);
    var n := if negative then -Value(digits) else Value(digits);
    if digits == [] || !(-0x20_0000_0000_0000 <= n <= 0x20_0000_0000_0000) then None
    else Some(Read(Number(n), s[|digits| + if negative then 1 else 0..]))
  }

  function HexValue(u: Unit): Option<nat> {
    if 48 <= u <= 57 then Some(u - 48) else if 97 <= u <= 102 then Some(u - 87) else None
  }

  /** One code unit of a string, escaped or not. */
  function ParseUnit(s: Text): (r: Option<Read<Unit>>)
    requires s != []
    ensures r.Some? ==> |r.value.rest| < |s|
  {
    if s[0] != BACKSLASH then Some(Read(s[0], s[1..]))
    else if |s| < 2 then None
    else if s[1] == QUOTE || s[1] == BACKSLASH then Some(Read(s[1], s[2..]))
    else if s[1] == 98 then Some(Read(8, s[2..]))
    else if s[1] == 102 then Some(Read(12, s[2..]))
    else if s[1] == 110 then Some(Read(10, s[2..]))
    else if s[1] == 114 then Some(Read(13, s[2..]))
    else if s[1] == 116 then Some(Read(9, s[2..]))
    else if s[1] == 117 && |s| >= 6 && s[2] == 48 && s[3] == 48 then
      var high :- HexValue(s[4]);
      var low :- HexValue(s[5]);
      Some(Read(16 * high + low, s[6..]))
    else None
  }

  /** The text up to the closing quote. */
  function ParseString(s: Text): (r: Option<Read<Text>>)
    ensures r.Some? ==> |r.value.rest| < |s|
    decreases |s|
  {
    if s == [] then None
    else if s[0] == QUOTE then Some(Read([], s[1..]))
    else
      var first :- ParseUnit(s);
      var more :- ParseString(first.rest);
      Some(Read([first.value] + more.value, more.rest))
  }

  function ParseValue(s: Text): (r: Option<Read<Json>>)
    ensures r.Some? ==> |r.value.rest| < |s|
    decreases |s|, 0
  {
    if s == [] then None
    else if NULL <= s then Some(Read(Null, s[4..]))
    else if TRUE <= s then Some(Read(Bool(true), s[4..]))
    else if FALSE <= s then Some(Read(Bool(false), s[5..]))
    else if s[0] == QUOTE then
      var text :- ParseString(s[1..]);
      Some(Read(Str(text.value), text.rest))
    else if s[0] == OPEN_BRACKET then
      if |s| > 1 && s[1] == CLOSE_BRACKET then Some(Read(Array([]), s[2..])) else
      var items :- ParseItems(s[1..]);
      Some(Read(Array(items.value), items.rest))
    else if s[0] == OPEN_BRACE then
      if |s| > 1 && s[1] == CLOSE_BRACE then Some(Read(Object([]), s[2..])) else
      var members :- ParseMembers(s[1..]);
      Some(Read(Object(members.value), members.rest))
    else ParseNumber(s)
  }

  function ParseItems(s: Text): (r: Option<Read<seq<Json>>>)
    ensures r.Some? ==> |r.value.rest| < |s|
    decreases |s|, 1
  {
    var first :- ParseValue(s);
    if first.rest == [] then None
    else if first.rest[0] == CLOSE_BRACKET then Some(Read([first.value], first.rest[1..]))
    else if first.rest[0] == COMMA then
      var more :- ParseItems(first.rest[1..]);
      Some(Read([first.value] + more.value, more.rest))
    else None
  }

  function ParseMembers(s: Text): (r: Option<Read<seq<Member>>>)
    ensures r.Some? ==> |r.value.rest| < |s|
    decreases |s|, 1
  {
    if s == [] || s[0] != QUOTE then None else
    var key :- ParseString(s[1..]);
    if key.rest == [] || key.rest[0] != COLON then None else
    var value :- ParseValue(key.rest[1..]);
    var member := Member(key.value, value.value);
    if value.rest == [] then None
    else if value.rest[0] == CLOSE_BRACE then Some(Read([member], value.rest[1..]))
    else if value.rest[0] == COMMA then
      var more :- ParseMembers(value.rest[1..]);
      Some(Read([member] + more.value, more.rest))
    else None
  }

  // ---- what a value is written as, in the order it has ----

  function Print(v: Json): Text
    decreases Size(v)
  {
    match v
    case Null => NULL
    case Bool(flag) => if flag then TRUE else FALSE
    case Number(n) => NumberText(n)
    case Str(text) => Quoted(text)
    case Array(items) => [OPEN_BRACKET] + PrintItems(items) + [CLOSE_BRACKET]
    case Object(members) => [OPEN_BRACE] + PrintMembers(members) + [CLOSE_BRACE]
    case Other => []
  }

  function PrintItems(items: seq<Json>): Text
    decreases SizeOfItems(items)
  {
    if items == [] then [] else Print(items[0]) + Comma(PrintItems(items[1..]))
  }

  function PrintMembers(members: seq<Member>): Text
    decreases SizeOfMembers(members)
  {
    if members == [] then []
    else Quoted(members[0].key) + [COLON] + Print(members[0].value) + Comma(PrintMembers(members[1..]))
  }

  /** The value with the members of every object in key order. */
  function Normal(v: Json): Json
    decreases Size(v)
  {
    match v
    case Array(items) => Array(NormalItems(items))
    case Object(members) =>
      SortSize(members);
      Object(NormalMembers(Sort(members)))
    case _ => v
  }

  function NormalItems(items: seq<Json>): seq<Json>
    decreases SizeOfItems(items)
  {
    if items == [] then [] else [Normal(items[0])] + NormalItems(items[1..])
  }

  function NormalMembers(members: seq<Member>): seq<Member>
    decreases SizeOfMembers(members)
  {
    if members == [] then []
    else [Member(members[0].key, Normal(members[0].value))] + NormalMembers(members[1..])
  }

  // ---- the serializer prints the normal form ----

  lemma {:induction false} InsertKeeps(m: Member, sorted: seq<Member>)
    ensures |Insert(m, sorted)| == |sorted| + 1
    ensures forall x :: x in Insert(m, sorted) <==> x == m || x in sorted
  {
    if sorted != [] && !Less(m.key, sorted[0].key) {
      InsertKeeps(m, sorted[1..]);
      assert sorted == [sorted[0]] + sorted[1..];
    }
  }

  lemma {:induction false} SortKeeps(members: seq<Member>)
    ensures |Sort(members)| == |members|
    ensures forall m :: m in Sort(members) <==> m in members
  {
    if members != [] {
      SortKeeps(members[1..]);
      assert Sort(members) == Insert(members[0], Sort(members[1..]));
      hide Insert, Sort;
      InsertKeeps(members[0], Sort(members[1..]));
      assert members == [members[0]] + members[1..];
    }
  }

  lemma {:induction false} MembersJsonIff(members: seq<Member>)
    ensures AllMembersJson(members) <==> forall m :: m in members ==> !HasLoneSurrogate(m.key) && IsJson(m.value)
  {
    if members != [] {
      MembersJsonIff(members[1..]);
      assert members == [members[0]] + members[1..];
    }
  }

  lemma {:induction false} SerializesNormal(v: Json)
    ensures Serialize(v) == if IsJson(v) then Some(Print(Normal(v))) else None
    decreases Size(v)
  {
    match v
    case Array(items) => SerializesItems(items);
    case Object(members) =>
      SortSize(members);
      SerializesMembers(Sort(members));
      SortKeeps(members);
      MembersJsonIff(members);
      MembersJsonIff(Sort(members));
    case _ =>
  }

  lemma {:induction false} SerializesItems(items: seq<Json>)
    ensures SerializeItems(items) == if AllJson(items) then Some(PrintItems(NormalItems(items))) else None
    decreases SizeOfItems(items)
  {
    if items != [] {
      SerializesNormal(items[0]);
      SerializesItems(items[1..]);
      assert NormalItems(items)[1..] == NormalItems(items[1..]);
    }
  }

  lemma {:induction false} SerializesMembers(members: seq<Member>)
    ensures SerializeMembers(members) == if AllMembersJson(members) then Some(PrintMembers(NormalMembers(members))) else None
    decreases SizeOfMembers(members)
  {
    if members != [] {
      SerializesNormal(members[0].value);
      SerializesMembers(members[1..]);
      assert NormalMembers(members)[1..] == NormalMembers(members[1..]);
    }
  }

  // ---- the reader undoes the printer ----

  lemma {:induction false} ReadsEscaped(text: Text, rest: Text)
    ensures ParseString(EscapedAll(text) + [QUOTE] + rest) == Some(Read(text, rest))
  {
    hide Escaped, ParseUnit;
    if text == [] {
      assert EscapedAll(text) + [QUOTE] + rest == [QUOTE] + rest;
      assert ([QUOTE] + rest)[1..] == rest;
    } else {
      var tail := EscapedAll(text[1..]) + [QUOTE] + rest;
      ReadsUnit(text[0], tail);
      ReadsEscaped(text[1..], rest);
      assert EscapedAll(text) + [QUOTE] + rest == Escaped(text[0]) + tail;
      assert text == [text[0]] + text[1..];
      hide EscapedAll;
      ParsesUnit(Escaped(text[0]) + tail, text[0], tail, text[1..], rest);
    }
  }

  lemma {:induction false} ParsesUnit(s: Text, u: Unit, tail: Text, more: Text, rest: Text)
    requires s != [] && s[0] != QUOTE && ParseUnit(s) == Some(Read(u, tail)) && ParseString(tail) == Some(Read(more, rest))
    ensures ParseString(s) == Some(Read([u] + more, rest))
  {
    hide ParseUnit;
  }

  lemma {:induction false} ReadsUnit(u: Unit, tail: Text)
    ensures var s := Escaped(u) + tail; s[0] != QUOTE && ParseUnit(s) == Some(Read(u, tail))
  {
    var s := Escaped(u) + tail;
    assert s[|Escaped(u)|..] == tail;
    if u < 32 {
      assert 16 * (u / 16) + u % 16 == u;
    }
  }

  lemma {:induction false} DecimalReads(n: nat)
    ensures Decimal(n) != [] && Value(Decimal(n)) == n && forall i :: 0 <= i < |Decimal(n)| ==> IsDigit(Decimal(n)[i])
  {
    if n >= 10 {
      DecimalReads(n / 10);
      assert Decimal(n)[..|Decimal(n)| - 1] == Decimal(n / 10);
    }
  }

  lemma {:induction false} DigitsEnd(digits: Text, rest: Text)
    requires (forall i :: 0 <= i < |digits| ==> IsDigit(digits[i])) && (rest == [] || !IsDigit(rest[0]))
    ensures DigitsOf(digits + rest) == digits
  {
    if digits == [] {
      assert digits + rest == rest;
    } else {
      assert (digits + rest)[1..] == digits[1..] + rest;
      DigitsEnd(digits[1..], rest);
    }
  }

  lemma {:induction false} ReadsNumber(n: Integer, rest: Text)
    requires rest == [] || !IsDigit(rest[0])
    ensures ParseNumber(NumberText(n) + rest) == Some(Read(Number(n), rest))
  {
    var m: nat := if n < 0 then -n else n;
    DecimalReads(m);
    DigitsEnd(Decimal(m), rest);
    hide Decimal, DigitsOf, Value;
    if n < 0 {
      Skip([MINUS], Decimal(m), rest);
      ParsesNegative([MINUS] + Decimal(m) + rest, Decimal(m), rest);
    } else {
      ParsesDigits(Decimal(m), rest);
    }
  }

  lemma {:induction false} ParsesDigits(digits: Text, rest: Text)
    requires digits != [] && IsDigit(digits[0]) && DigitsOf(digits + rest) == digits
    requires 0 <= Value(digits) <= 0x20_0000_0000_0000
    ensures ParseNumber(digits + rest) == Some(Read(Number(Value(digits)), rest))
  {
    hide DigitsOf, Value;
    var s := digits + rest;
    assert s[0] == digits[0] && s[|digits|..] == rest;
  }

  lemma {:induction false} ParsesNegative(s: Text, digits: Text, rest: Text)
    requires s != [] && s[0] == MINUS && digits != [] && s[1..] == digits + rest && DigitsOf(digits + rest) == digits
    requires 0 <= Value(digits) <= 0x20_0000_0000_0000
    ensures ParseNumber(s) == Some(Read(Number(-Value(digits)), rest))
  {
    hide DigitsOf, Value;
    assert s[|digits| + 1..] == s[1..][|digits|..] == rest;
  }

  lemma {:induction false} Skip(a: Text, b: Text, rest: Text)
    ensures (a + b + rest)[|a|..] == b + rest && (a + b + rest)[|a| + |b|..] == rest
    ensures a + b + rest == a + (b + rest)
  {}

  /** What the text of a value begins with tells its kind. */
  lemma {:induction false} FirstUnit(v: Json)
    requires IsJson(v)
    ensures Print(v) != []
    ensures v.Number? ==> IsDigit(Print(v)[0]) || Print(v)[0] == MINUS
    ensures v.Str? ==> Print(v)[0] == QUOTE
    ensures v.Array? ==> Print(v)[0] == OPEN_BRACKET
    ensures v.Object? ==> Print(v)[0] == OPEN_BRACE
    ensures Print(v)[0] != CLOSE_BRACKET && Print(v)[0] != CLOSE_BRACE
  {
    if v.Number? {
      DecimalReads(if v.n < 0 then -v.n else v.n);
    }
  }

  lemma {:induction false} ReadsWord(word: Text, rest: Text, v: Json)
    requires v in {Null, Bool(true), Bool(false)} && word == Print(v)
    ensures ParseValue(word + rest) == Some(Read(v, rest))
  {
    hide ParseItems, ParseMembers, ParseNumber, ParseString;
    assert (word + rest)[..|word|] == word && (word + rest)[|word|..] == rest;
    assert (word + rest)[0] == word[0];
  }

  lemma {:induction false} ParsesNumber(s: Text)
    requires s != [] && (IsDigit(s[0]) || s[0] == MINUS)
    ensures ParseValue(s) == ParseNumber(s)
  {
    hide ParseItems, ParseMembers, ParseNumber, ParseString;
  }

  lemma {:induction false} ParsesString(s: Text)
    requires s != [] && s[0] == QUOTE
    ensures var text := ParseString(s[1..]);
      ParseValue(s) == if text.None? then None else Some(Read(Str(text.value.value), text.value.rest))
  {
    hide ParseItems, ParseMembers, ParseNumber, ParseString;
  }

  lemma {:induction false} ParsesArray(s: Text)
    requires s != [] && s[0] == OPEN_BRACKET
    ensures |s| > 1 && s[1] == CLOSE_BRACKET ==> ParseValue(s) == Some(Read(Array([]), s[2..]))
    ensures |s| > 1 && s[1] != CLOSE_BRACKET ==>
      var items := ParseItems(s[1..]);
      ParseValue(s) == if items.None? then None else Some(Read(Array(items.value.value), items.value.rest))
  {
    hide ParseItems, ParseMembers, ParseNumber, ParseString;
  }

  lemma {:induction false} ParsesObject(s: Text)
    requires s != [] && s[0] == OPEN_BRACE
    ensures |s| > 1 && s[1] == CLOSE_BRACE ==> ParseValue(s) == Some(Read(Object([]), s[2..]))
    ensures |s| > 1 && s[1] != CLOSE_BRACE ==>
      var members := ParseMembers(s[1..]);
      ParseValue(s) == if members.None? then None else Some(Read(Object(members.value.value), members.value.rest))
  {
    hide ParseItems, ParseMembers, ParseNumber, ParseString;
  }

  lemma {:induction false} ReadsValue(v: Json, rest: Text)
    requires IsJson(v) && (rest == [] || !IsDigit(rest[0]))
    ensures ParseValue(Print(v) + rest) == Some(Read(v, rest))
    decreases Size(v)
  {
    hide ParseValue, ParseItems, ParseMembers, ParseNumber, ParseString, IsDigit;
    FirstUnit(v);
    match v
    case Null => ReadsWord(NULL, rest, v);
    case Bool(flag) => ReadsWord(Print(v), rest, v);
    case Number(n) =>
      assert (Print(v) + rest)[0] == Print(v)[0];
      ParsesNumber(Print(v) + rest);
      ReadsNumber(n, rest);
    case Str(text) => ReadsText(text, rest);
    case Array(items) =>
      if items != [] {
        ReadsItems(items, rest);
      }
      ReadsArray(items, rest);
    case Object(members) =>
      if members != [] {
        ReadsMembers(members, rest);
      }
      ReadsObject(members, rest);
  }

  lemma {:induction false} ReadsText(text: Text, rest: Text)
    ensures ParseValue(Quoted(text) + rest) == Some(Read(Str(text), rest))
  {
    hide ParseValue, ParseString, EscapedAll;
    ReadsEscaped(text, rest);
    var s := Quoted(text) + rest;
    assert s[1..] == EscapedAll(text) + [QUOTE] + rest;
    ParsesString(s);
  }

  lemma {:induction false} ReadsArray(items: seq<Json>, rest: Text)
    requires AllJson(items)
    requires items != [] ==> ParseItems(PrintItems(items) + [CLOSE_BRACKET] + rest) == Some(Read(items, rest))
    ensures ParseValue([OPEN_BRACKET] + PrintItems(items) + [CLOSE_BRACKET] + rest) == Some(Read(Array(items), rest))
  {
    hide *;
    ItemsBegin(items);
    Bracketed(OPEN_BRACKET, PrintItems(items), CLOSE_BRACKET, rest);
    ParsesArray([OPEN_BRACKET] + PrintItems(items) + [CLOSE_BRACKET] + rest);
  }

  lemma {:induction false} Bracketed(open: Unit, body: Text, close: Unit, rest: Text)
    ensures var s := [open] + body + [close] + rest;
      && |s| > 1 && s[0] == open && s[1..] == body + [close] + rest
      && s[1] == (if body == [] then close else body[0])
      && (body == [] ==> s[2..] == rest)
  {}

  lemma {:induction false} ItemsBegin(items: seq<Json>)
    requires AllJson(items)
    ensures items == [] ==> PrintItems(items) == []
    ensures items != [] ==> PrintItems(items) != [] && PrintItems(items)[0] != CLOSE_BRACKET
  {
    if items != [] {
      FirstUnit(items[0]);
    }
    hide Print;
  }

  lemma {:induction false} ReadsObject(members: seq<Member>, rest: Text)
    requires members != [] ==> ParseMembers(PrintMembers(members) + [CLOSE_BRACE] + rest) == Some(Read(members, rest))
    ensures ParseValue([OPEN_BRACE] + PrintMembers(members) + [CLOSE_BRACE] + rest) == Some(Read(Object(members), rest))
  {
    hide *;
    MembersBegin(members);
    Bracketed(OPEN_BRACE, PrintMembers(members), CLOSE_BRACE, rest);
    ParsesObject([OPEN_BRACE] + PrintMembers(members) + [CLOSE_BRACE] + rest);
  }

  lemma {:induction false} MembersBegin(members: seq<Member>)
    ensures members == [] ==> PrintMembers(members) == []
    ensures members != [] ==> PrintMembers(members) != [] && PrintMembers(members)[0] == QUOTE != CLOSE_BRACE
  {
    hide Print, EscapedAll;
  }

  /** One item read, then the end or the next one. */
  lemma {:induction false} ParsesItem(s: Text, first: Json, tail: Text)
    requires ParseValue(s) == Some(Read(first, tail)) && tail != []
    ensures tail[0] == CLOSE_BRACKET ==> ParseItems(s) == Some(Read([first], tail[1..]))
    ensures tail[0] == COMMA ==>
      var more := ParseItems(tail[1..]);
      ParseItems(s) == if more.None? then None else Some(Read([first] + more.value.value, more.value.rest))
  {
    hide ParseValue;
  }

  lemma {:induction false} ReadsItems(items: seq<Json>, rest: Text)
    requires items != [] && AllJson(items)
    ensures ParseItems(PrintItems(items) + [CLOSE_BRACKET] + rest) == Some(Read(items, rest))
    decreases SizeOfItems(items)
  {
    hide ParseValue, ParseItems, Print, PrintItems;
    var more := PrintItems(items[1..]);
    var tail := Comma(more) + [CLOSE_BRACKET] + rest;
    ItemsText(items, rest);
    if items[1..] == [] {
      assert tail[0] == CLOSE_BRACKET && tail[1..] == rest && items == [items[0]];
    } else {
      ReadsItems(items[1..], rest);
      assert tail[0] == COMMA && tail[1..] == more + [CLOSE_BRACKET] + rest;
      assert items == [items[0]] + items[1..];
    }
    ReadsValue(items[0], tail);
    ParsesItem(PrintItems(items) + [CLOSE_BRACKET] + rest, items[0], tail);
  }

  lemma {:induction false} ItemsText(items: seq<Json>, rest: Text)
    requires items != [] && AllJson(items)
    ensures PrintItems(items) + [CLOSE_BRACKET] + rest == Print(items[0]) + (Comma(PrintItems(items[1..])) + [CLOSE_BRACKET] + rest)
    ensures items[1..] == [] <==> PrintItems(items[1..]) == []
  {
    ItemsBegin(items[1..]);
    hide Print, AllJson, Size;
    assert PrintItems(items) == Print(items[0]) + Comma(PrintItems(items[1..]));
    hide PrintItems;
  }

  lemma {:induction false} ParsesMember(s: Text, key: Text, value: Json, tail: Text, text: Text)
    requires s != [] && s[0] == QUOTE && ParseString(s[1..]) == Some(Read(key, [COLON] + text))
    requires ParseValue(text) == Some(Read(value, tail)) && tail != []
    ensures tail[0] == CLOSE_BRACE ==> ParseMembers(s) == Some(Read([Member(key, value)], tail[1..]))
    ensures tail[0] == COMMA ==>
      var more := ParseMembers(tail[1..]);
      ParseMembers(s) == if more.None? then None else Some(Read([Member(key, value)] + more.value.value, more.value.rest))
  {
    hide ParseValue, ParseString;
    assert ([COLON] + text)[1..] == text;
  }

  lemma {:induction false} ReadsMembers(members: seq<Member>, rest: Text)
    requires members != [] && AllMembersJson(members)
    ensures ParseMembers(PrintMembers(members) + [CLOSE_BRACE] + rest) == Some(Read(members, rest))
    decreases SizeOfMembers(members)
  {
    hide ParseValue, ParseMembers, ParseString, Print, EscapedAll, PrintMembers, Quoted, HasLoneSurrogate;
    var first, more := members[0], PrintMembers(members[1..]);
    var s := PrintMembers(members) + [CLOSE_BRACE] + rest;
    var tail := Comma(more) + [CLOSE_BRACE] + rest;
    MembersBegin(members[1..]);
    MembersUnroll(members);
    if members[1..] == [] {
      assert tail[0] == CLOSE_BRACE && tail[1..] == rest && members == [first];
    } else {
      ReadsMembers(members[1..], rest);
      assert tail[0] == COMMA && tail[1..] == more + [CLOSE_BRACE] + rest;
      assert members == [first] + members[1..];
    }
    MemberText(first, more, rest);
    ReadsEscaped(first.key, [COLON] + (Print(first.value) + tail));
    ReadsValue(first.value, tail);
    ParsesMember(s, first.key, first.value, tail, Print(first.value) + tail);
  }

  lemma {:induction false} MembersUnroll(members: seq<Member>)
    requires members != []
    ensures PrintMembers(members) == Quoted(members[0].key) + [COLON] + Print(members[0].value) + Comma(PrintMembers(members[1..]))
  {
    hide Print, Quoted;
  }

  lemma {:induction false} MemberText(first: Member, more: Text, rest: Text)
    ensures var s := Quoted(first.key) + [COLON] + Print(first.value) + Comma(more) + [CLOSE_BRACE] + rest;
      && s[0] == QUOTE
      && s[1..] == EscapedAll(first.key) + [QUOTE] + ([COLON] + (Print(first.value) + (Comma(more) + [CLOSE_BRACE] + rest)))
  {
    hide Print, EscapedAll, Comma;
  }

  // ---- equal values have one normal form ----

  lemma {:induction false} NormalItemsAt(items: seq<Json>, i: nat)
    requires i < |items|
    ensures |NormalItems(items)| == |items| && NormalItems(items)[i] == Normal(items[i])
  {
    if i > 0 {
      NormalItemsAt(items[1..], i - 1);
    } else if |items| > 1 {
      NormalItemsAt(items[1..], 0);
    }
  }

  lemma {:induction false} NormalMembersAt(members: seq<Member>)
    ensures |NormalMembers(members)| == |members|
    ensures forall i :: 0 <= i < |members| ==> NormalMembers(members)[i] == Member(members[i].key, Normal(members[i].value))
  {
    if members != [] {
      NormalMembersAt(members[1..]);
    }
  }

  ghost predicate Sorted(members: seq<Member>) {
    forall i, j :: 0 <= i < j < |members| ==> Less(members[i].key, members[j].key)
  }

  lemma {:induction false} InsertSorts(m: Member, sorted: seq<Member>)
    requires Sorted(sorted) && forall x :: x in sorted ==> x.key != m.key
    ensures Sorted(Insert(m, sorted))
  {
    if sorted != [] {
      LessIsAnOrder(m.key, sorted[0].key);
      if Less(m.key, sorted[0].key) {
        forall j | 0 < j < |sorted| ensures Less(m.key, sorted[j].key) {
          LessIsTransitive(m.key, sorted[0].key, sorted[j].key);
        }
      } else {
        InsertSorts(m, sorted[1..]);
        InsertKeeps(m, sorted[1..]);
        var tail := Insert(m, sorted[1..]);
        forall j | 0 <= j < |tail| ensures Less(sorted[0].key, tail[j].key) {
          assert tail[j] in tail;
          assert tail[j] == m || tail[j] in sorted[1..];
        }
      }
    }
  }

  lemma {:induction false} SortSorts(members: seq<Member>)
    requires DistinctKeys(members)
    ensures Sorted(Sort(members))
  {
    if members != [] {
      SortSorts(members[1..]);
      SortKeeps(members[1..]);
      InsertSorts(members[0], Sort(members[1..]));
    }
  }

  /** Ordered members with the same content are the same sequence. */
  lemma {:induction false} OneOrder(a: seq<Member>, b: seq<Member>)
    requires Sorted(a) && Sorted(b) && forall m :: m in a <==> m in b
    ensures a == b
  {
    if a == [] {
      assert forall j :: 0 <= j < |b| ==> b[j] in b;
    } else {
      assert a[0] in b;
      assert b[0] in a;
      LessIsAnOrder(a[0].key, b[0].key);
      assert a[0] == b[0];
      forall m ensures m in a[1..] <==> m in b[1..] {
        TailHolds(a, m);
        TailHolds(b, m);
      }
      OneOrder(a[1..], b[1..]);
      assert a == [a[0]] + a[1..] && b == [b[0]] + b[1..];
    }
  }

  lemma {:induction false} TailHolds(a: seq<Member>, m: Member)
    requires Sorted(a) && a != []
    ensures m in a[1..] <==> m in a && m != a[0]
  {
    LessIsAnOrder(a[0].key, a[0].key);
    assert a == [a[0]] + a[1..];
  }

  lemma {:induction false} ProperItem(items: seq<Json>, i: nat)
    requires AllProper(items) && i < |items|
    ensures Proper(items[i])
  {
    if i > 0 {
      ProperItem(items[1..], i - 1);
    }
  }

  lemma {:induction false} ProperMember(members: seq<Member>, i: nat)
    requires AllMembersProper(members) && i < |members|
    ensures Proper(members[i].value)
  {
    if i > 0 {
      ProperMember(members[1..], i - 1);
    }
  }

  function NormalMember(m: Member): Member { Member(m.key, Normal(m.value)) }

  /** One of the members, normalized. */
  ghost predicate Means(members: seq<Member>, x: Member) {
    exists i :: 0 <= i < |members| && x == NormalMember(members[i])
  }

  /** The members of the normal form of an object: those of the object, normalized, in key order. */
  lemma {:induction false} NormalObject(members: seq<Member>)
    requires DistinctKeys(members)
    ensures var r := Normal(Object(members));
      r.Object? && Sorted(r.members) && forall x :: x in r.members <==> Means(members, x)
  {
    SortSize(members);
    SortKeeps(members);
    SortSorts(members);
    NormalMembersAt(Sort(members));
    var r := NormalMembers(Sort(members));
    assert Normal(Object(members)) == Object(r);
    hide Normal, NormalMembers, Sort;
    forall x ensures x in r <==> Means(members, x) {
      if x in r {
        var j :| 0 <= j < |r| && r[j] == x;
        assert Sort(members)[j] in members;
        var i :| 0 <= i < |members| && members[i] == Sort(members)[j];
      }
      if i :| 0 <= i < |members| && x == NormalMember(members[i]) {
        assert members[i] in Sort(members);
        var j :| 0 <= j < |r| && Sort(members)[j] == members[i];
        assert r[j] == x;
      }
    }
  }

  /** Two values are equal exactly when their normal forms are. */
  lemma {:induction false} SameIffNormal(a: Json, b: Json)
    requires Proper(a) && Proper(b)
    ensures Same(a, b) <==> Normal(a) == Normal(b)
    decreases Size(a), 0
  {
    if a.Array? && b.Array? {
      SameItems(a.items, b.items);
    } else if a.Object? && b.Object? {
      SameMembers(a.members, b.members);
    }
  }

  lemma {:induction false} SameItems(s: seq<Json>, t: seq<Json>)
    requires AllProper(s) && AllProper(t)
    ensures Same(Array(s), Array(t)) <==> Normal(Array(s)) == Normal(Array(t))
    decreases SizeOfItems(s)
  {
    NormalItemsLength(s);
    NormalItemsLength(t);
    if |s| == |t| {
      forall i | 0 <= i < |s|
        ensures Size(s[i]) < SizeOfItems(s) && (Same(s[i], t[i]) <==> NormalItems(s)[i] == NormalItems(t)[i])
      {
        ItemIsSmaller(s, i);
        ProperItem(s, i);
        ProperItem(t, i);
        SameIffNormal(s[i], t[i]);
        NormalItemsAt(s, i);
        NormalItemsAt(t, i);
      }
      assert Normal(Array(s)) == Normal(Array(t)) <==> NormalItems(s) == NormalItems(t);
    }
  }

  lemma {:induction false} NormalItemsLength(items: seq<Json>)
    ensures |NormalItems(items)| == |items|
  {
    if items != [] {
      NormalItemsAt(items, 0);
    }
  }

  lemma {:induction false} SameMembers(m: seq<Member>, n: seq<Member>)
    requires DistinctKeys(m) && DistinctKeys(n) && AllMembersProper(m) && AllMembersProper(n)
    ensures Same(Object(m), Object(n)) <==> Normal(Object(m)) == Normal(Object(n))
    decreases SizeOfMembers(m)
  {
    forall i | 0 <= i < |m| ensures Size(m[i].value) < SizeOfMembers(m) && (HeldIn(m[i], n) <==> Means(n, NormalMember(m[i]))) {
      MemberIsSmaller(m, i);
      ProperMember(m, i);
      HeldIffMeant(m[i], n);
    }
    hide Normal, AllMembersProper, HeldIn, Means;
    var same := (forall i :: 0 <= i < |m| ==> Means(n, NormalMember(m[i]))) && (forall j :: 0 <= j < |n| ==> HasKey(m, n[j].key));
    assert Same(Object(m), Object(n)) <==> same;
    hide Same;
    MeanTheSameIff(m, n);
    NormalObject(m);
    NormalObject(n);
    if forall x :: Means(m, x) <==> Means(n, x) {
      OneOrder(Normal(Object(m)).members, Normal(Object(n)).members);
    }
  }

  lemma {:induction false} HeldIffMeant(x: Member, n: seq<Member>)
    requires Proper(x.value) && AllMembersProper(n)
    ensures HeldIn(x, n) <==> Means(n, NormalMember(x))
    decreases Size(x.value), 1
  {
    forall j | 0 <= j < |n| ensures Same(x.value, n[j].value) <==> Normal(x.value) == Normal(n[j].value) {
      ProperMember(n, j);
      SameIffNormal(x.value, n[j].value);
    }
    hide Same, Normal;
  }

  lemma {:induction false} MeanTheSameIff(m: seq<Member>, n: seq<Member>)
    requires DistinctKeys(m) && DistinctKeys(n)
    ensures (forall i :: 0 <= i < |m| ==> Means(n, NormalMember(m[i]))) && (forall j :: 0 <= j < |n| ==> HasKey(m, n[j].key))
      <==> forall x :: Means(m, x) <==> Means(n, x)
  {
    hide Normal;
    if forall x :: Means(m, x) <==> Means(n, x) {
      forall i | 0 <= i < |m| ensures Means(n, NormalMember(m[i])) {
        assert Means(m, NormalMember(m[i]));
      }
      forall j | 0 <= j < |n| ensures HasKey(m, n[j].key) {
        assert Means(n, NormalMember(n[j]));
      }
    }
    if (forall i :: 0 <= i < |m| ==> Means(n, NormalMember(m[i]))) && (forall j :: 0 <= j < |n| ==> HasKey(m, n[j].key)) {
      forall x ensures Means(m, x) <==> Means(n, x) {
        if j :| 0 <= j < |n| && x == NormalMember(n[j]) {
          var i :| 0 <= i < |m| && m[i].key == n[j].key;
          var k :| 0 <= k < |n| && NormalMember(m[i]) == NormalMember(n[k]);
          assert k == j;
        }
      }
    }
  }

  // ---- the normal form is one ----

  lemma {:induction false} ProperMembersIff(members: seq<Member>)
    ensures AllMembersProper(members) <==> forall m :: m in members ==> Proper(m.value)
  {
    if members != [] {
      ProperMembersIff(members[1..]);
      assert members == [members[0]] + members[1..];
    }
  }

  lemma {:induction false} SortedMembersFit(members: seq<Member>)
    ensures SizeOfMembers(Sort(members)) == SizeOfMembers(members)
    ensures AllMembersJson(members) ==> AllMembersJson(Sort(members))
    ensures AllMembersProper(members) ==> AllMembersProper(Sort(members))
  {
    SortSize(members);
    SortKeeps(members);
    MembersJsonIff(members);
    MembersJsonIff(Sort(members));
    ProperMembersIff(members);
    ProperMembersIff(Sort(members));
  }

  lemma {:induction false} NormalIsJson(v: Json)
    requires IsJson(v)
    ensures IsJson(Normal(v))
    decreases Size(v)
  {
    match v
    case Array(items) => NormalItemsJson(items);
    case Object(members) =>
      SortedMembersFit(members);
      NormalMembersJson(Sort(members));
    case _ =>
  }

  lemma {:induction false} NormalItemsJson(items: seq<Json>)
    requires AllJson(items)
    ensures AllJson(NormalItems(items))
    decreases SizeOfItems(items)
  {
    if items != [] {
      NormalIsJson(items[0]);
      NormalItemsJson(items[1..]);
      assert NormalItems(items)[1..] == NormalItems(items[1..]);
    }
  }

  lemma {:induction false} NormalMembersJson(members: seq<Member>)
    requires AllMembersJson(members)
    ensures AllMembersJson(NormalMembers(members))
    decreases SizeOfMembers(members)
  {
    if members != [] {
      NormalIsJson(members[0].value);
      NormalMembersJson(members[1..]);
      assert NormalMembers(members)[1..] == NormalMembers(members[1..]);
    }
  }

  /** The normal form holds no key twice, and normalizing it changes nothing. */
  lemma {:induction false} NormalTwice(v: Json)
    requires Proper(v)
    ensures Proper(Normal(v)) && Normal(Normal(v)) == Normal(v)
    decreases Size(v)
  {
    match v
    case Array(items) => NormalItemsTwice(items);
    case Object(members) =>
      SortedMembersFit(members);
      NormalMembersTwice(Sort(members));
      NormalObject(members);
      var r := Normal(v).members;
      SortedIsDistinct(r);
      SortKeeps(r);
      SortSorts(r);
      OneOrder(Sort(r), r);
    case _ =>
  }

  lemma {:induction false} SortedIsDistinct(members: seq<Member>)
    requires Sorted(members)
    ensures DistinctKeys(members)
  {
    forall i, j | 0 <= i < j < |members| ensures members[i].key != members[j].key {
      LessIsAnOrder(members[i].key, members[j].key);
    }
  }

  lemma {:induction false} NormalItemsTwice(items: seq<Json>)
    requires AllProper(items)
    ensures AllProper(NormalItems(items)) && NormalItems(NormalItems(items)) == NormalItems(items)
    decreases SizeOfItems(items)
  {
    if items != [] {
      NormalTwice(items[0]);
      NormalItemsTwice(items[1..]);
      assert NormalItems(items)[1..] == NormalItems(items[1..]);
    }
  }

  lemma {:induction false} NormalMembersTwice(members: seq<Member>)
    requires AllMembersProper(members)
    ensures AllMembersProper(NormalMembers(members)) && NormalMembers(NormalMembers(members)) == NormalMembers(members)
    decreases SizeOfMembers(members)
  {
    if members != [] {
      NormalTwice(members[0].value);
      NormalMembersTwice(members[1..]);
      assert NormalMembers(members)[1..] == NormalMembers(members[1..]);
    }
  }

  // ---- the theorems ----

  /** `canonicalize` throws exactly on what is not a JSON value or holds a lone surrogate, in a string or a key. */
  lemma {:induction false} SerializesIff(v: Json)
    ensures Serialize(v).Some? <==> IsJson(v)
  {
    SerializesNormal(v);
  }

  /** The text is the same exactly when the values are, in whatever order the keys were set. */
  lemma {:induction false} CanonicalTextIdentifies(a: Json, b: Json)
    requires IsJson(a) && IsJson(b) && Proper(a) && Proper(b)
    ensures Serialize(a) == Serialize(b) <==> Same(a, b)
  {
    SerializesNormal(a);
    SerializesNormal(b);
    SameIffNormal(a, b);
    if Print(Normal(a)) == Print(Normal(b)) {
      NormalIsJson(a);
      NormalIsJson(b);
      ReadsValue(Normal(a), []);
      ReadsValue(Normal(b), []);
    }
  }

  /** A reader of the grammar recovers the value, with its keys in canonical order. */
  lemma {:induction false} ReaderRecovers(v: Json)
    requires IsJson(v) && Proper(v)
    ensures Serialize(v).Some?
    ensures var read := ParseValue(Serialize(v).value);
      read.Some? && read.value.rest == [] && read.value.value == Normal(v) && Same(v, read.value.value)
  {
    SerializesNormal(v);
    NormalIsJson(v);
    ReadsValue(Normal(v), []);
    assert Print(Normal(v)) + [] == Print(Normal(v));
    NormalTwice(v);
    SameIffNormal(v, Normal(v));
  }

  /** A collision-free hash of the canonical text identifies the value. */
  lemma {:induction false} HashIdentifies(sha: Text -> string, a: Json, b: Json)
    requires forall s, t :: sha(s) == sha(t) ==> s == t
    requires IsJson(a) && IsJson(b) && Proper(a) && Proper(b)
    ensures Serialize(a).Some? && Serialize(b).Some?
    ensures sha(Serialize(a).value) == sha(Serialize(b).value) <==> Same(a, b)
  {
    SerializesIff(a);
    SerializesIff(b);
    CanonicalTextIdentifies(a, b);
  }
}
