/**
 * Comparing the report an operator states with the one rebuilt from published data: the JSON
 * paths at which two trees differ.
 */
module Differences {
  import opened Wrappers
  import opened CanonicalJson

  /**
   * What `value[key]` gives: a field, nothing, or what every JavaScript object inherits, which
   * is `Object.prototype` under `__proto__` and functions under a few other names.
   */
  datatype Value = Field(json: Json) | Undefined | Prototype | Builtin

  const PROTO: Text := [95, 95, 112, 114, 111, 116, 111, 95, 95]

  /** `constructor`, `toString` and the other names `Object.prototype` defines. */
  type Inherited = set<Text>

  /** The first member with the key, if any. */
  function Find(members: seq<Member>, key: Text): (i: nat)
    ensures i <= |members| && (i < |members| ==> members[i].key == key)
    ensures i == |members| ==> forall j :: 0 <= j < |members| ==> members[j].key != key
  {
    if members == [] || members[0].key == key then 0 else 1 + Find(members[1..], key)
  }

  predicate IsRecord(v: Value) {
    v.Prototype? || (v.Field? && v.json.Object?)
  }

  predicate IsArray(v: Value) {
    v.Field? && v.json.Array?
  }

  function Get(names: Inherited, v: Value, key: Text): Value
    requires IsRecord(v)
  {
    if v.Field? && Find(v.json.members, key) < |v.json.members| then Field(v.json.members[Find(v.json.members, key)].value)
    else if key == PROTO then (if v.Prototype? then Field(Null) else Prototype)
    else if key in names then Builtin
    else Undefined
  }

  /** `Object.keys`; nothing inherited is listed. */
  function Keys(v: Value): seq<Text>
    requires IsRecord(v)
  {
    if v.Prototype? then [] else seq(|v.json.members|, i requires 0 <= i < |v.json.members| => v.json.members[i].key)
  }

  function InsertKey(key: Text, sorted: seq<Text>): (r: seq<Text>)
    ensures forall k :: k in r <==> k == key || k in sorted
  {
    if sorted == [] then [key]
    else if key == sorted[0] then sorted
    else if Less(key, sorted[0]) then [key] + sorted
    else
      assert sorted == [sorted[0]] + sorted[1..];
      [sorted[0]] + InsertKey(key, sorted[1..])
  }

  /** The distinct keys, ordered. */
  function SortedKeys(keys: seq<Text>): (r: seq<Text>)
    ensures forall k :: k in r <==> k in keys
  {
    if keys == [] then [] else
    assert keys == [keys[0]] + keys[1..];
    InsertKey(keys[0], SortedKeys(keys[1..]))
  }

  /** `a === b` of values that are not both arrays and not both records. */
  predicate Identical(a: Value, b: Value) {
    !IsRecord(a) && !IsArray(a) && !a.Builtin? && a == b
  }

  function Weight(v: Value): nat {
    match v
    case Field(json) => if json.Object? || json.Array? then 2 + Size(json) else 0
    case Prototype => 1
    case _ => 0
  }

  lemma {:induction false} GetIsLighter(names: Inherited, v: Value, key: Text)
    requires IsRecord(v)
    ensures Weight(Get(names, v, key)) < Weight(v)
  {
    if v.Field? && Find(v.json.members, key) < |v.json.members| {
      MemberIsSmaller(v.json.members, Find(v.json.members, key));
    }
  }

  lemma {:induction false} ItemIsLighter(items: seq<Json>, i: nat)
    requires i < |items|
    ensures Weight(Field(items[i])) < Weight(Field(Array(items)))
  {
    ItemIsSmaller(items, i);
  }

  // ---- what the walks find nothing in ----

  /** No path is reported for the two values. */
  ghost predicate Agree(names: Inherited, a: Value, b: Value)
    decreases Weight(a)
  {
    if IsArray(a) && IsArray(b) then
      |a.json.items| == |b.json.items|
      && forall i :: 0 <= i < |a.json.items| ==> (ItemIsLighter(a.json.items, i); Agree(names, Field(a.json.items[i]), Field(b.json.items[i])))
    else if IsRecord(a) && IsRecord(b) then
      forall key :: key in Keys(a) || key in Keys(b) ==> (GetIsLighter(names, a, key); Agree(names, Get(names, a, key), Get(names, b, key)))
    else Identical(a, b)
  }

  /** Everything `b` states is in `a`. */
  ghost predicate Backs(names: Inherited, a: Value, b: Value)
    decreases Weight(b)
  {
    if IsRecord(b) then
      IsRecord(a) && forall key :: key in Keys(b) ==> (GetIsLighter(names, b, key); Backs(names, Get(names, a, key), Get(names, b, key)))
    else if IsArray(b) then
      IsArray(a) && |a.json.items| == |b.json.items|
      && forall i :: 0 <= i < |b.json.items| ==> (ItemIsLighter(b.json.items, i); Backs(names, Field(a.json.items[i]), Field(b.json.items[i])))
    else Identical(a, b)
  }

  // ---- what the walks report ----

  function ItemPath(path: Text, index: nat): Text { path + [OPEN_BRACKET] + Decimal(index) + [CLOSE_BRACKET] }

  function KeyPath(path: Text, key: Text): Text { path + [46] + key }

  /** ` (length)`. */
  const LENGTH: Text := [32, 40, 108, 101, 110, 103, 116, 104, 41]

  /** Paths are written with brackets around an index and a dot before a key. */
  lemma {:induction false} PathTexts(path: Text, index: nat, key: Text)
    ensures index < 10 ==> ItemPath(path, index) == path + [91, 48 + index, 93]
    ensures index >= 10 ==>
      ItemPath(path, index) == ItemPath(path, index / 10)[..|ItemPath(path, index / 10)| - 1] + [48 + index % 10, 93]
    ensures KeyPath(path, key) == path + [46] + key
  {
    if index >= 10 {
      assert ItemPath(path, index / 10)[..|ItemPath(path, index / 10)| - 1] == path + [91] + Decimal(index / 10);
    }
  }

  /** `text` is the path, from `path` on, of a place at which the values differ. */
  ghost predicate Differs(names: Inherited, a: Value, b: Value, path: Text, text: Text)
    decreases Weight(a)
  {
    if IsArray(a) && IsArray(b) then
      || LengthDiffers(a.json.items, b.json.items, path, text)
      || exists i :: 0 <= i < |a.json.items| && i < |b.json.items|
           && (ItemIsLighter(a.json.items, i); Differs(names, Field(a.json.items[i]), Field(b.json.items[i]), ItemPath(path, i), text))
    else if IsRecord(a) && IsRecord(b) then
      exists key :: (key in Keys(a) || key in Keys(b))
        && (GetIsLighter(names, a, key); Differs(names, Get(names, a, key), Get(names, b, key), KeyPath(path, key), text))
    else !Identical(a, b) && text == path
  }

  predicate LengthDiffers(s: seq<Json>, t: seq<Json>, path: Text, text: Text) { |s| != |t| && text == path + LENGTH }

  /** `text` is the path, from `path` on, of something `b` states that `a` lacks or holds otherwise. */
  ghost predicate Lacks(names: Inherited, a: Value, b: Value, path: Text, text: Text)
    decreases Weight(b)
  {
    if IsRecord(b) then
      if !IsRecord(a) then text == path
      else exists key :: key in Keys(b)
             && (GetIsLighter(names, b, key); Lacks(names, Get(names, a, key), Get(names, b, key), KeyPath(path, key), text))
    else if IsArray(b) then
      if !IsArray(a) then text == path
      else if |a.json.items| != |b.json.items| then text == path + LENGTH
      else exists i :: 0 <= i < |b.json.items|
             && (ItemIsLighter(b.json.items, i); Lacks(names, Field(a.json.items[i]), Field(b.json.items[i]), ItemPath(path, i), text))
    else !Identical(a, b) && text == path
  }

  ghost function Places(names: Inherited, a: Value, b: Value, path: Text): iset<Text> {
    iset text | Differs(names, a, b, path, text)
  }

  ghost function StatedPlaces(names: Inherited, a: Value, b: Value, path: Text): iset<Text> {
    iset text | Lacks(names, a, b, path, text)
  }

  /** What was added are places, and all of them unless the limit was reached. */
  ghost predicate Reported(before: seq<Text>, found: seq<Text>, limit: nat, places: iset<Text>) {
    && before <= found
    && (forall k :: |before| <= k < |found| ==> found[k] in places)
    && (|found| < limit ==> forall text :: text in places ==> text in found)
  }

  lemma {:induction false} ReportedBoth(before: seq<Text>, middle: seq<Text>, found: seq<Text>, limit: nat, p: iset<Text>, q: iset<Text>)
    requires Reported(before, middle, limit, p) && Reported(middle, found, limit, q)
    ensures Reported(before, found, limit, p + q)
  {
    forall k | |before| <= k < |found| ensures found[k] in p + q {
      assert k < |middle| ==> found[k] == middle[k];
    }
  }

  lemma {:induction false} NothingReported(before: seq<Text>, limit: nat)
    ensures Reported(before, before, limit, iset{})
  {}

  lemma {:induction false} LengthReported(s: seq<Json>, t: seq<Json>, path: Text, before: seq<Text>, limit: nat)
    ensures Reported(before, if |s| != |t| then before + [path + LENGTH] else before, limit, iset text | LengthDiffers(s, t, path, text))
  {}

  lemma {:induction false} ReportedIsMore(before: seq<Text>, found: seq<Text>, limit: nat, places: iset<Text>)
    requires Reported(before, found, limit, places)
    ensures before <= found
  {}

  /** The places in the first `n` items both arrays have, and their length. */
  ghost function ItemPlaces(names: Inherited, s: seq<Json>, t: seq<Json>, path: Text, n: nat): iset<Text>
    requires n <= |s| && n <= |t|
  {
    if n == 0 then iset text | LengthDiffers(s, t, path, text)
    else ItemPlaces(names, s, t, path, n - 1) + Places(names, Field(s[n - 1]), Field(t[n - 1]), ItemPath(path, n - 1))
  }

  ghost function StatedItemPlaces(names: Inherited, s: seq<Json>, t: seq<Json>, path: Text, n: nat): iset<Text>
    requires n <= |s| && n <= |t|
  {
    if n == 0 then iset{}
    else StatedItemPlaces(names, s, t, path, n - 1) + StatedPlaces(names, Field(s[n - 1]), Field(t[n - 1]), ItemPath(path, n - 1))
  }

  /** The places under the keys. */
  ghost function KeyPlaces(names: Inherited, a: Value, b: Value, path: Text, keys: seq<Text>): iset<Text>
    requires IsRecord(a) && IsRecord(b)
  {
    if keys == [] then iset{} else
    var key := keys[|keys| - 1];
    KeyPlaces(names, a, b, path, keys[..|keys| - 1]) + Places(names, Get(names, a, key), Get(names, b, key), KeyPath(path, key))
  }

  ghost function StatedKeyPlaces(names: Inherited, a: Value, b: Value, path: Text, keys: seq<Text>): iset<Text>
    requires IsRecord(a) && IsRecord(b)
  {
    if keys == [] then iset{} else
    var key := keys[|keys| - 1];
    StatedKeyPlaces(names, a, b, path, keys[..|keys| - 1]) + StatedPlaces(names, Get(names, a, key), Get(names, b, key), KeyPath(path, key))
  }

  lemma {:induction false} ItemPlacesIff(names: Inherited, s: seq<Json>, t: seq<Json>, path: Text, n: nat, text: Text)
    requires n <= |s| && n <= |t|
    ensures text in ItemPlaces(names, s, t, path, n) <==>
      LengthDiffers(s, t, path, text) || exists i :: 0 <= i < n && Differs(names, Field(s[i]), Field(t[i]), ItemPath(path, i), text)
  {
    hide Differs, Lacks, LengthDiffers, ItemPath;
    if n > 0 {
      ItemPlacesIff(names, s, t, path, n - 1, text);
    }
  }

  lemma {:induction false} StatedItemPlacesIff(names: Inherited, s: seq<Json>, t: seq<Json>, path: Text, n: nat, text: Text)
    requires n <= |s| && n <= |t|
    ensures text in StatedItemPlaces(names, s, t, path, n) <==>
      exists i :: 0 <= i < n && Lacks(names, Field(s[i]), Field(t[i]), ItemPath(path, i), text)
  {
    hide Differs, Lacks, ItemPath;
    if n > 0 {
      StatedItemPlacesIff(names, s, t, path, n - 1, text);
    }
  }

  lemma {:induction false} ItemPlacesAre(names: Inherited, s: seq<Json>, t: seq<Json>, path: Text)
    ensures var n := if |s| < |t| then |s| else |t|; ItemPlaces(names, s, t, path, n) == Places(names, Field(Array(s)), Field(Array(t)), path)
  {
    var n := if |s| < |t| then |s| else |t|;
    forall i | 0 <= i < |s| ensures Weight(Field(s[i])) < Weight(Field(Array(s))) {
      ItemIsLighter(s, i);
    }
    forall text ensures text in ItemPlaces(names, s, t, path, n) <==> text in Places(names, Field(Array(s)), Field(Array(t)), path) {
      ItemPlacesIff(names, s, t, path, n, text);
    }
  }

  lemma {:induction false} StatedItemPlacesAre(names: Inherited, s: seq<Json>, t: seq<Json>, path: Text)
    requires |s| == |t|
    ensures StatedItemPlaces(names, s, t, path, |t|) == StatedPlaces(names, Field(Array(s)), Field(Array(t)), path)
  {
    forall i | 0 <= i < |t| ensures Weight(Field(t[i])) < Weight(Field(Array(t))) {
      ItemIsLighter(t, i);
    }
    forall text ensures text in StatedItemPlaces(names, s, t, path, |t|) <==> text in StatedPlaces(names, Field(Array(s)), Field(Array(t)), path) {
      StatedItemPlacesIff(names, s, t, path, |t|, text);
    }
  }

  lemma {:induction false} KeyPlacesNext(names: Inherited, a: Value, b: Value, path: Text, keys: seq<Text>, i: nat)
    requires IsRecord(a) && IsRecord(b) && i < |keys|
    ensures KeyPlaces(names, a, b, path, keys[..i + 1])
      == KeyPlaces(names, a, b, path, keys[..i]) + Places(names, Get(names, a, keys[i]), Get(names, b, keys[i]), KeyPath(path, keys[i]))
    ensures StatedKeyPlaces(names, a, b, path, keys[..i + 1])
      == StatedKeyPlaces(names, a, b, path, keys[..i]) + StatedPlaces(names, Get(names, a, keys[i]), Get(names, b, keys[i]), KeyPath(path, keys[i]))
  {
    assert keys[..i + 1][..i] == keys[..i];
    hide Places, StatedPlaces, Get, KeyPath;
  }

  lemma {:induction false} NoKeyPlaces(names: Inherited, a: Value, b: Value, path: Text)
    requires IsRecord(a) && IsRecord(b)
    ensures KeyPlaces(names, a, b, path, []) == StatedKeyPlaces(names, a, b, path, []) == iset{}
  {}

  lemma {:induction false} KeyPlacesIff(names: Inherited, a: Value, b: Value, path: Text, keys: seq<Text>, text: Text)
    requires IsRecord(a) && IsRecord(b)
    ensures text in KeyPlaces(names, a, b, path, keys) <==>
      exists key :: key in keys && Differs(names, Get(names, a, key), Get(names, b, key), KeyPath(path, key), text)
    ensures text in StatedKeyPlaces(names, a, b, path, keys) <==>
      exists key :: key in keys && Lacks(names, Get(names, a, key), Get(names, b, key), KeyPath(path, key), text)
  {
    if keys != [] {
      KeyPlacesIff(names, a, b, path, keys[..|keys| - 1], text);
      assert keys == keys[..|keys| - 1] + [keys[|keys| - 1]];
    }
    hide Differs, Lacks, Get, KeyPath;
  }

  lemma {:induction false} KeyPlacesAre(names: Inherited, a: Value, b: Value, path: Text, keys: seq<Text>)
    requires IsRecord(a) && IsRecord(b) && forall key :: key in keys <==> key in Keys(a) || key in Keys(b)
    ensures KeyPlaces(names, a, b, path, keys) == Places(names, a, b, path)
  {
    forall key ensures Weight(Get(names, a, key)) < Weight(a) {
      GetIsLighter(names, a, key);
    }
    hide Get, Keys, Weight;
    forall text ensures text in KeyPlaces(names, a, b, path, keys) <==> text in Places(names, a, b, path) {
      KeyPlacesIff(names, a, b, path, keys, text);
    }
  }

  lemma {:induction false} StatedKeyPlacesAre(names: Inherited, a: Value, b: Value, path: Text, keys: seq<Text>)
    requires IsRecord(a) && IsRecord(b) && forall key :: key in keys <==> key in Keys(b)
    ensures StatedKeyPlaces(names, a, b, path, keys) == StatedPlaces(names, a, b, path)
  {
    forall key ensures Weight(Get(names, b, key)) < Weight(b) {
      GetIsLighter(names, b, key);
    }
    hide Get, Keys, Weight;
    forall text ensures text in StatedKeyPlaces(names, a, b, path, keys) <==> text in StatedPlaces(names, a, b, path) {
      KeyPlacesIff(names, a, b, path, keys, text);
    }
  }

  // ---- the walks ----

  /** JSON paths at which two values differ, at most `limit` of them. */
  method Differences(names: Inherited, expected: Json, actual: Json, limit: nat) returns (found: seq<Text>)
    requires limit >= 1
    ensures found == [] <==> Agree(names, Field(expected), Field(actual))
    ensures |found| <= limit
    ensures forall k :: 0 <= k < |found| ==> Differs(names, Field(expected), Field(actual), [36], found[k])
    ensures |found| < limit ==> forall text :: Differs(names, Field(expected), Field(actual), [36], text) ==> text in found
  {
    found := Walk(names, Field(expected), Field(actual), [36], [], limit);
  }

  method Walk(names: Inherited, a: Value, b: Value, path: Text, before: seq<Text>, limit: nat) returns (found: seq<Text>)
    requires limit >= 1 && |before| <= limit
    ensures before <= found && |found| <= limit
    ensures |before| < limit ==> (found == before <==> Agree(names, a, b))
    ensures Reported(before, found, limit, Places(names, a, b, path))
    decreases Weight(a), 1
  {
    if |before| >= limit {
      return before;
    }
    if IsArray(a) && IsArray(b) {
      found := WalkItems(names, a.json.items, b.json.items, path, before, limit);
      return;
    }
    if IsRecord(a) && IsRecord(b) {
      found := WalkKeys(names, a, b, path, before, limit);
      return;
    }
    found := if Identical(a, b) then before else before + [path];
  }

  method WalkItems(names: Inherited, s: seq<Json>, t: seq<Json>, path: Text, before: seq<Text>, limit: nat) returns (found: seq<Text>)
    requires |before| < limit
    ensures before <= found && |found| <= limit
    ensures found == before <==> Agree(names, Field(Array(s)), Field(Array(t)))
    ensures Reported(before, found, limit, Places(names, Field(Array(s)), Field(Array(t)), path))
    decreases Weight(Field(Array(s))), 0
  {
    hide Places, Differs, Reported, LengthDiffers;
    LengthReported(s, t, path, before, limit);
    found := before;
    if |s| != |t| {
      found := found + [path + LENGTH];
    }
    for i := 0 to if |s| < |t| then |s| else |t|
      invariant before <= found && |found| <= limit
      invariant found == before <==> |s| == |t| && forall j :: 0 <= j < i ==> Agree(names, Field(s[j]), Field(t[j]))
      invariant Reported(before, found, limit, ItemPlaces(names, s, t, path, i))
    {
      ItemIsLighter(s, i);
      ghost var middle := found;
      found := Walk(names, Field(s[i]), Field(t[i]), ItemPath(path, i), found, limit);
      ReportedBoth(before, middle, found, limit, ItemPlaces(names, s, t, path, i), Places(names, Field(s[i]), Field(t[i]), ItemPath(path, i)));
    }
    ItemPlacesAre(names, s, t, path);
  }

  method WalkKeys(names: Inherited, a: Value, b: Value, path: Text, before: seq<Text>, limit: nat) returns (found: seq<Text>)
    requires |before| < limit && IsRecord(a) && IsRecord(b)
    ensures before <= found && |found| <= limit
    ensures found == before <==> Agree(names, a, b)
    ensures Reported(before, found, limit, Places(names, a, b, path))
    decreases Weight(a), 0
  {
    hide Get, Keys, Places, StatedPlaces, Differs, Reported, KeyPlaces, StatedKeyPlaces, KeyPath;
    NothingReported(before, limit);
    NoKeyPlaces(names, a, b, path);
    found := before;
    var keys := SortedKeys(Keys(a) + Keys(b));
    for i := 0 to |keys|
      invariant before <= found && |found| <= limit
      invariant found == before <==> forall j :: 0 <= j < i ==> Agree(names, Get(names, a, keys[j]), Get(names, b, keys[j]))
      invariant Reported(before, found, limit, KeyPlaces(names, a, b, path, keys[..i]))
    {
      GetIsLighter(names, a, keys[i]);
      ghost var middle := found;
      found := Walk(names, Get(names, a, keys[i]), Get(names, b, keys[i]), KeyPath(path, keys[i]), found, limit);
      KeyPlacesNext(names, a, b, path, keys, i);
      ReportedBoth(before, middle, found, limit, KeyPlaces(names, a, b, path, keys[..i]),
                   Places(names, Get(names, a, keys[i]), Get(names, b, keys[i]), KeyPath(path, keys[i])));
    }
    assert keys[..|keys|] == keys;
    KeyPlacesAre(names, a, b, path, keys);
    ghost var agree := forall j :: 0 <= j < |keys| ==> Agree(names, Get(names, a, keys[j]), Get(names, b, keys[j]));
    assert forall key :: key in keys <==> key in Keys(a) || key in Keys(b);
    assert agree <==> forall key :: key in keys ==> Agree(names, Get(names, a, key), Get(names, b, key));
  }

  /** JSON paths of the fields `stated` gives that the rebuilt report lacks or holds with another value. */
  method StatedDifferences(names: Inherited, rebuilt: Json, stated: Json, limit: nat) returns (found: seq<Text>)
    requires limit >= 1
    ensures found == [] <==> Backs(names, Field(rebuilt), Field(stated))
    ensures |found| <= limit
    ensures forall k :: 0 <= k < |found| ==> Lacks(names, Field(rebuilt), Field(stated), [36], found[k])
    ensures |found| < limit ==> forall text :: Lacks(names, Field(rebuilt), Field(stated), [36], text) ==> text in found
  {
    found := WalkStated(names, Field(rebuilt), Field(stated), [36], [], limit);
  }

  method WalkStated(names: Inherited, a: Value, b: Value, path: Text, before: seq<Text>, limit: nat) returns (found: seq<Text>)
    requires limit >= 1 && |before| <= limit
    ensures before <= found && |found| <= limit
    ensures |before| < limit ==> (found == before <==> Backs(names, a, b))
    ensures Reported(before, found, limit, StatedPlaces(names, a, b, path))
    decreases Weight(b), 1
  {
    if |before| >= limit {
      return before;
    }
    if IsRecord(b) {
      if !IsRecord(a) {
        return before + [path];
      }
      found := WalkStatedKeys(names, a, b, path, before, limit);
      return;
    }
    if IsArray(b) {
      if !IsArray(a) {
        return before + [path];
      }
      if |a.json.items| != |b.json.items| {
        return before + [path + LENGTH];
      }
      found := WalkStatedItems(names, a.json.items, b.json.items, path, before, limit);
      return;
    }
    found := if Identical(a, b) then before else before + [path];
  }

  method WalkStatedItems(names: Inherited, s: seq<Json>, t: seq<Json>, path: Text, before: seq<Text>, limit: nat) returns (found: seq<Text>)
    requires |before| < limit && |s| == |t|
    ensures before <= found && |found| <= limit
    ensures found == before <==> Backs(names, Field(Array(s)), Field(Array(t)))
    ensures Reported(before, found, limit, StatedPlaces(names, Field(Array(s)), Field(Array(t)), path))
    decreases Weight(Field(Array(t))), 0
  {
    found := before;
    for i := 0 to |t|
      invariant before <= found && |found| <= limit
      invariant found == before <==> forall j :: 0 <= j < i ==> Backs(names, Field(s[j]), Field(t[j]))
      invariant Reported(before, found, limit, StatedItemPlaces(names, s, t, path, i))
    {
      ItemIsLighter(t, i);
      ghost var middle := found;
      found := WalkStated(names, Field(s[i]), Field(t[i]), ItemPath(path, i), found, limit);
      ReportedBoth(before, middle, found, limit, StatedItemPlaces(names, s, t, path, i), StatedPlaces(names, Field(s[i]), Field(t[i]), ItemPath(path, i)));
    }
    StatedItemPlacesAre(names, s, t, path);
  }

  method WalkStatedKeys(names: Inherited, a: Value, b: Value, path: Text, before: seq<Text>, limit: nat) returns (found: seq<Text>)
    requires |before| < limit && IsRecord(a) && IsRecord(b)
    ensures before <= found && |found| <= limit
    ensures found == before <==> Backs(names, a, b)
    ensures Reported(before, found, limit, StatedPlaces(names, a, b, path))
    decreases Weight(b), 0
  {
    hide Get, Keys, Places, StatedPlaces, Lacks, Reported, KeyPlaces, StatedKeyPlaces, KeyPath;
    NothingReported(before, limit);
    NoKeyPlaces(names, a, b, path);
    found := before;
    var keys := SortedKeys(Keys(b));
    for i := 0 to |keys|
      invariant before <= found && |found| <= limit
      invariant found == before <==> forall j :: 0 <= j < i ==> Backs(names, Get(names, a, keys[j]), Get(names, b, keys[j]))
      invariant Reported(before, found, limit, StatedKeyPlaces(names, a, b, path, keys[..i]))
    {
      GetIsLighter(names, b, keys[i]);
      ghost var middle := found;
      found := WalkStated(names, Get(names, a, keys[i]), Get(names, b, keys[i]), KeyPath(path, keys[i]), found, limit);
      KeyPlacesNext(names, a, b, path, keys, i);
      ReportedBoth(before, middle, found, limit, StatedKeyPlaces(names, a, b, path, keys[..i]),
                   StatedPlaces(names, Get(names, a, keys[i]), Get(names, b, keys[i]), KeyPath(path, keys[i])));
    }
    assert keys[..|keys|] == keys;
    StatedKeyPlacesAre(names, a, b, path, keys);
    ghost var backs := forall j :: 0 <= j < |keys| ==> Backs(names, Get(names, a, keys[j]), Get(names, b, keys[j]));
    assert forall key :: key in keys <==> key in Keys(b);
    assert backs <==> forall key :: key in keys ==> Backs(names, Get(names, a, key), Get(names, b, key));
  }

  // ---- what finding nothing means ----

  /** JSON without a double key, at every depth. */
  ghost predicate Tree(v: Json)
    decreases Size(v)
  {
    match v
    case Array(items) => forall i :: 0 <= i < |items| ==> (ItemIsSmaller(items, i); Tree(items[i]))
    case Object(members) => DistinctKeys(members) && forall i :: 0 <= i < |members| ==> (MemberIsSmaller(members, i); Tree(members[i].value))
    case Other => false
    case _ => true
  }

  /** `{}` or `{"__proto__": null}`, which no walk tells from `Object.prototype`. */
  predicate Idle(v: Json) {
    v == Object([]) || v == Object([Member(PROTO, Null)])
  }

  /** A field `__proto__` that the other object lacks and that no walk notices. */
  predicate Unseen(m: Member, others: seq<Member>) {
    m.key == PROTO && Idle(m.value) && !HasKey(others, PROTO)
  }

  lemma {:induction false} FindsOnly(members: seq<Member>, i: nat)
    requires DistinctKeys(members) && i < |members|
    ensures Find(members, members[i].key) == i
  {}

  lemma {:induction false} HasKeyIff(members: seq<Member>, key: Text)
    ensures HasKey(members, key) <==> Find(members, key) < |members|
    ensures key in Keys(Field(Object(members))) <==> HasKey(members, key)
  {
    if i :| 0 <= i < |members| && members[i].key == key {
      assert Keys(Field(Object(members)))[i] == key;
    }
  }

  /** A field that is not there agrees with no field that is, and backs none. */
  lemma {:induction false} AbsentDiffers(names: Inherited, a: Value, v: Json)
    requires a.Undefined? || a.Builtin?
    ensures !Agree(names, a, Field(v)) && !Agree(names, Field(v), a) && !Backs(names, a, Field(v))
  {}

  lemma {:induction false} OwnOrAbsent(names: Inherited, members: seq<Member>, key: Text)
    ensures var v, i := Get(names, Field(Object(members)), key), Find(members, key);
      if i < |members| then v == Field(members[i].value)
      else if key == PROTO then v == Prototype
      else v.Undefined? || v.Builtin?
  {}

  /** Of all fields, `Object.prototype` agrees with the idle ones and backs no others. */
  lemma {:induction false} PrototypeMeetsIff(names: Inherited, v: Json)
    requires Tree(v)
    ensures Backs(names, Prototype, Field(v)) <==> Idle(v)
    ensures Agree(names, Prototype, Field(v)) <==> Idle(v)
    ensures Agree(names, Field(v), Prototype) <==> Idle(v)
  {
    if v.Object? {
      var n := v.members;
      forall j | 0 <= j < |n| ensures n[j].key in Keys(Field(v)) && PrototypeMeets(names, v, n[j]) {
        HasKeyIff(n, n[j].key);
        FindsOnly(n, j);
        PrototypeMeetsOne(names, n[j]);
      }
      forall key | key in Keys(Field(v)) ensures HasKey(n, key) {
        HasKeyIff(n, key);
      }
      assert Keys(Prototype) == [];
      hide Get, Keys, Tree, HasKey;
      assert |n| >= 2 ==> n[0].key != n[1].key;
      assert |n| == 0 ==> n == [];
      assert |n| == 1 ==> n == [n[0]];
    }
  }

  ghost predicate PrototypeMeets(names: Inherited, v: Json, m: Member)
    requires v.Object?
  {
    var mine, own := Get(names, Prototype, m.key), Get(names, Field(v), m.key);
    && (Backs(names, mine, own) <==> m == Member(PROTO, Null))
    && (Agree(names, mine, own) <==> m == Member(PROTO, Null))
    && (Agree(names, own, mine) <==> m == Member(PROTO, Null))
  }

  lemma {:induction false} PrototypeMeetsOne(names: Inherited, m: Member)
    ensures var mine := Get(names, Prototype, m.key);
      && (Backs(names, mine, Field(m.value)) <==> m == Member(PROTO, Null))
      && (Agree(names, mine, Field(m.value)) <==> m == Member(PROTO, Null))
      && (Agree(names, Field(m.value), mine) <==> m == Member(PROTO, Null))
  {}

  // ---- what `differences` compares ----

  /** Equal as JSON values, but for fields `__proto__` that no walk notices. */
  ghost predicate Alike(a: Json, b: Json)
    decreases Size(a), 0
  {
    match (a, b)
    case (Array(s), Array(t)) =>
      |s| == |t| && forall i :: 0 <= i < |s| ==> (ItemIsSmaller(s, i); Alike(s[i], t[i]))
    case (Object(m), Object(n)) =>
      && (forall i :: 0 <= i < |m| ==> (MemberIsSmaller(m, i); AlikeIn(m[i], n) || Unseen(m[i], n)))
      && (forall j :: 0 <= j < |n| ==> HasKey(m, n[j].key) || Unseen(n[j], m))
    case _ => a == b
  }

  /** The object holds the member's key with a value like its own. */
  ghost predicate AlikeIn(m: Member, members: seq<Member>)
    decreases Size(m.value), 1
  {
    exists j :: 0 <= j < |members| && members[j].key == m.key && Alike(m.value, members[j].value)
  }

  /** Somewhere in the two trees one object has a `__proto__` that the other lacks and no walk notices. */
  ghost predicate OneSided(a: Json, b: Json)
    decreases Size(a), 0
  {
    match (a, b)
    case (Array(s), Array(t)) =>
      exists i :: 0 <= i < |s| && i < |t| && (ItemIsSmaller(s, i); OneSided(s[i], t[i]))
    case (Object(m), Object(n)) =>
      || (exists i :: 0 <= i < |m| && (MemberIsSmaller(m, i); Unseen(m[i], n) || OneSidedIn(m[i], n)))
      || (exists j :: 0 <= j < |n| && Unseen(n[j], m))
    case _ => false
  }

  ghost predicate OneSidedIn(m: Member, members: seq<Member>)
    decreases Size(m.value), 1
  {
    exists j :: 0 <= j < |members| && members[j].key == m.key && OneSided(m.value, members[j].value)
  }

  /** `differences` is empty exactly when the trees are alike. */
  lemma {:induction false} AgreeIffAlike(names: Inherited, a: Json, b: Json)
    requires Tree(a) && Tree(b)
    ensures Agree(names, Field(a), Field(b)) <==> Alike(a, b)
    decreases Size(a), 1
  {
    if a.Array? && b.Array? {
      if |a.items| == |b.items| {
        forall i | 0 <= i < |a.items|
          ensures Size(a.items[i]) < Size(a) && (Agree(names, Field(a.items[i]), Field(b.items[i])) <==> Alike(a.items[i], b.items[i]))
        {
          ItemIsSmaller(a.items, i);
          AgreeIffAlike(names, a.items[i], b.items[i]);
        }
      }
    } else if a.Object? && b.Object? {
      ObjectsAgreeIff(names, a.members, b.members);
    }
  }

  /** The objects agree on one key. */
  ghost predicate KeyAgrees(names: Inherited, m: seq<Member>, n: seq<Member>, key: Text) {
    Agree(names, Get(names, Field(Object(m)), key), Get(names, Field(Object(n)), key))
  }

  lemma {:induction false} ObjectsAgree(names: Inherited, m: seq<Member>, n: seq<Member>)
    ensures Agree(names, Field(Object(m)), Field(Object(n))) <==>
      forall key :: HasKey(m, key) || HasKey(n, key) ==> KeyAgrees(names, m, n, key)
  {
    forall key ensures key in Keys(Field(Object(m))) <==> HasKey(m, key) {
      HasKeyIff(m, key);
    }
    forall key ensures key in Keys(Field(Object(n))) <==> HasKey(n, key) {
      HasKeyIff(n, key);
    }
    hide HasKey, Keys, Get, Find;
  }

  lemma {:induction false} ObjectsAgreeIff(names: Inherited, m: seq<Member>, n: seq<Member>)
    requires Tree(Object(m)) && Tree(Object(n))
    ensures Agree(names, Field(Object(m)), Field(Object(n))) <==> Alike(Object(m), Object(n))
    decreases SizeOfMembers(m), 1
  {
    ObjectsAgree(names, m, n);
    forall i | 0 <= i < |m|
      ensures Size(m[i].value) < SizeOfMembers(m) && (KeyAgrees(names, m, n, m[i].key) <==> AlikeIn(m[i], n) || Unseen(m[i], n))
    {
      MemberIsSmaller(m, i);
      MemberAgreesIff(names, m, n, i);
    }
    forall j | 0 <= j < |n| ensures KeyAgrees(names, m, n, n[j].key) ==> HasKey(m, n[j].key) || Unseen(n[j], m) {
      OtherKeyAgrees(names, m, n, j);
    }
    forall j | 0 <= j < |n| && Unseen(n[j], m) ensures KeyAgrees(names, m, n, n[j].key) {
      OtherKeyAgrees(names, m, n, j);
    }
    ObjectsAlike(m, n);
    hide *;
    AllKeysAgreeIff(names, m, n);
  }

  lemma {:induction false} ObjectsAlike(m: seq<Member>, n: seq<Member>)
    ensures Alike(Object(m), Object(n)) <==>
      (forall i :: 0 <= i < |m| ==> AlikeIn(m[i], n) || Unseen(m[i], n)) && (forall j :: 0 <= j < |n| ==> HasKey(m, n[j].key) || Unseen(n[j], m))
  {
    hide AlikeIn, HasKey, Unseen;
    forall i | 0 <= i < |m| ensures Size(m[i].value) < SizeOfMembers(m) {
      MemberIsSmaller(m, i);
    }
  }

  lemma {:induction false} AllKeysAgreeIff(names: Inherited, m: seq<Member>, n: seq<Member>)
    requires forall i :: 0 <= i < |m| ==> (KeyAgrees(names, m, n, m[i].key) <==> AlikeIn(m[i], n) || Unseen(m[i], n))
    requires forall j :: 0 <= j < |n| ==> (KeyAgrees(names, m, n, n[j].key) ==> HasKey(m, n[j].key) || Unseen(n[j], m))
    requires forall j :: 0 <= j < |n| && Unseen(n[j], m) ==> KeyAgrees(names, m, n, n[j].key)
    ensures (forall key :: HasKey(m, key) || HasKey(n, key) ==> KeyAgrees(names, m, n, key)) <==>
      (forall i :: 0 <= i < |m| ==> AlikeIn(m[i], n) || Unseen(m[i], n)) && (forall j :: 0 <= j < |n| ==> HasKey(m, n[j].key) || Unseen(n[j], m))
  {
    hide KeyAgrees, AlikeIn, Unseen;
    assert forall i :: 0 <= i < |m| ==> HasKey(m, m[i].key);
    assert forall j :: 0 <= j < |n| ==> HasKey(n, n[j].key);
  }

  /** A key the first object lacks. */
  lemma {:induction false} OtherKeyAgrees(names: Inherited, m: seq<Member>, n: seq<Member>, j: nat)
    requires j < |n| && Tree(Object(n))
    ensures !HasKey(m, n[j].key) ==> (KeyAgrees(names, m, n, n[j].key) <==> Unseen(n[j], m))
  {
    var key := n[j].key;
    MemberIsSmaller(n, j);
    OwnOrAbsent(names, m, key);
    OwnOrAbsent(names, n, key);
    FindsOnly(n, j);
    HasKeyIff(m, key);
    PrototypeMeetsIff(names, n[j].value);
    if Find(m, key) == |m| && key != PROTO {
      AbsentDiffers(names, Get(names, Field(Object(m)), key), n[j].value);
    }
  }

  lemma {:induction false} MemberAgreesIff(names: Inherited, m: seq<Member>, n: seq<Member>, i: nat)
    requires i < |m| && Tree(Object(m)) && Tree(Object(n))
    ensures KeyAgrees(names, m, n, m[i].key) <==> AlikeIn(m[i], n) || Unseen(m[i], n)
    decreases Size(m[i].value), 2
  {
    var key, v := m[i].key, m[i].value;
    MemberIsSmaller(m, i);
    OwnOrAbsent(names, m, key);
    OwnOrAbsent(names, n, key);
    FindsOnly(m, i);
    HasKeyIff(n, key);
    var j := Find(n, key);
    if j < |n| {
      MemberIsSmaller(n, j);
      AgreeIffAlike(names, v, n[j].value);
      forall k | 0 <= k < |n| && n[k].key == key ensures k == j {
        FindsOnly(n, k);
      }
      hide Alike, Agree, Tree;
    } else if key == PROTO {
      PrototypeMeetsIff(names, v);
    } else {
      AbsentDiffers(names, Get(names, Field(Object(n)), key), v);
    }
  }

  /** Of two trees without a one-sided `__proto__`, alike are the equal ones. */
  lemma {:induction false} SameIffAlike(a: Json, b: Json)
    requires Tree(a) && Tree(b)
    ensures Same(a, b) <==> Alike(a, b) && !OneSided(a, b)
    decreases Size(a), 1
  {
    if a.Array? && b.Array? {
      forall i | 0 <= i < |a.items| && i < |b.items|
        ensures Size(a.items[i]) < Size(a)
        ensures Same(a.items[i], b.items[i]) <==> Alike(a.items[i], b.items[i]) && !OneSided(a.items[i], b.items[i])
      {
        ItemIsSmaller(a.items, i);
        SameIffAlike(a.items[i], b.items[i]);
      }
    } else if a.Object? && b.Object? {
      var m, n := a.members, b.members;
      forall i | 0 <= i < |m|
        ensures Size(m[i].value) < Size(a)
        ensures HeldIn(m[i], n) <==> AlikeIn(m[i], n) && !OneSidedIn(m[i], n)
        ensures HeldIn(m[i], n) ==> HasKey(n, m[i].key)
      {
        MemberIsSmaller(m, i);
        MemberSameIff(m, n, i);
      }
      hide HeldIn, AlikeIn, OneSidedIn, HasKey, Tree;
    }
  }

  lemma {:induction false} MemberSameIff(m: seq<Member>, n: seq<Member>, i: nat)
    requires i < |m| && Tree(Object(m)) && Tree(Object(n))
    ensures HeldIn(m[i], n) <==> AlikeIn(m[i], n) && !OneSidedIn(m[i], n)
    decreases Size(m[i].value), 2
  {
    MemberIsSmaller(m, i);
    if HasKey(n, m[i].key) {
      var j :| 0 <= j < |n| && n[j].key == m[i].key;
      MemberIsSmaller(n, j);
      SameIffAlike(m[i].value, n[j].value);
      forall k | 0 <= k < |n| && n[k].key == m[i].key ensures k == j {
        FindsOnly(n, k);
        FindsOnly(n, j);
      }
      hide Same, Alike, OneSided, Tree;
    }
  }

  /**
   * `differences` answers whether the trees are equal, except when they are alike and one has a
   * `__proto__` that the other lacks; then it finds nothing though they differ.
   */
  lemma {:induction false} AgreeIffSame(names: Inherited, a: Json, b: Json)
    requires Tree(a) && Tree(b)
    ensures Same(a, b) <==> Agree(names, Field(a), Field(b)) && !OneSided(a, b)
    ensures (Agree(names, Field(a), Field(b)) <==> Same(a, b)) <==> !(Alike(a, b) && OneSided(a, b))
  {
    AgreeIffAlike(names, a, b);
    SameIffAlike(a, b);
  }

  // ---- what `statedDifferences` compares ----

  /** Every field of `b` is in `a` with a value that holds what it states; arrays have one length. */
  ghost predicate SubTree(a: Json, b: Json)
    decreases Size(b)
  {
    match (a, b)
    case (Array(s), Array(t)) => |s| == |t| && forall i :: 0 <= i < |t| ==> (ItemIsSmaller(t, i); SubTree(s[i], t[i]))
    case (Object(m), Object(n)) =>
      forall j :: 0 <= j < |n| ==> (MemberIsSmaller(n, j); Find(m, n[j].key) < |m| && SubTree(m[Find(m, n[j].key)].value, n[j].value))
    case _ => a == b
  }

  /** A sub-tree, but for fields `__proto__` of `b` that no walk notices. */
  ghost predicate Backed(a: Json, b: Json)
    decreases Size(b)
  {
    match (a, b)
    case (Array(s), Array(t)) => |s| == |t| && forall i :: 0 <= i < |t| ==> (ItemIsSmaller(t, i); Backed(s[i], t[i]))
    case (Object(m), Object(n)) =>
      forall j :: 0 <= j < |n| ==> (MemberIsSmaller(n, j);
        Unseen(n[j], m) || (Find(m, n[j].key) < |m| && Backed(m[Find(m, n[j].key)].value, n[j].value)))
    case _ => a == b
  }

  /** Somewhere `b` has a `__proto__` that `a` lacks and no walk notices. */
  ghost predicate LacksProto(a: Json, b: Json)
    decreases Size(b)
  {
    match (a, b)
    case (Array(s), Array(t)) => exists i :: 0 <= i < |s| && i < |t| && (ItemIsSmaller(t, i); LacksProto(s[i], t[i]))
    case (Object(m), Object(n)) =>
      exists j :: 0 <= j < |n| && (MemberIsSmaller(n, j);
        Unseen(n[j], m) || (Find(m, n[j].key) < |m| && LacksProto(m[Find(m, n[j].key)].value, n[j].value)))
    case _ => false
  }

  /** `statedDifferences` is empty exactly when the stated tree is backed. */
  lemma {:induction false} BacksIffBacked(names: Inherited, a: Json, b: Json)
    requires Tree(a) && Tree(b)
    ensures Backs(names, Field(a), Field(b)) <==> Backed(a, b)
    decreases Size(b)
  {
    if a.Array? && b.Array? {
      if |a.items| == |b.items| {
        forall i | 0 <= i < |b.items|
          ensures Size(b.items[i]) < Size(b) && (Backs(names, Field(a.items[i]), Field(b.items[i])) <==> Backed(a.items[i], b.items[i]))
        {
          ItemIsSmaller(b.items, i);
          ItemIsSmaller(a.items, i);
          BacksIffBacked(names, a.items[i], b.items[i]);
        }
      }
    } else if a.Object? && b.Object? {
      var m, n := a.members, b.members;
      forall j | 0 <= j < |n| ensures KeyBacked(names, m, n, n[j].key) <==> BackedMember(m, n[j]) {
        MemberIsSmaller(n, j);
        OwnOrAbsent(names, m, n[j].key);
        HasKeyIff(m, n[j].key);
        FindsOnly(n, j);
        OwnOrAbsent(names, n, n[j].key);
        var i := Find(m, n[j].key);
        if i < |m| {
          MemberIsSmaller(m, i);
          BacksIffBacked(names, m[i].value, n[j].value);
        } else {
          ProtoUnnoticedIff(names, m, n, j);
        }
      }
      ObjectsBack(names, m, n);
    }
  }

  ghost predicate KeyBacked(names: Inherited, m: seq<Member>, n: seq<Member>, key: Text) {
    Backs(names, Get(names, Field(Object(m)), key), Get(names, Field(Object(n)), key))
  }

  /** A stated field that the report lacks goes unnoticed exactly when it is `__proto__` with `{}` or `{"__proto__": null}`. */
  lemma {:induction false} ProtoUnnoticedIff(names: Inherited, m: seq<Member>, n: seq<Member>, j: nat)
    requires j < |n| && Tree(Object(n)) && !HasKey(m, n[j].key)
    ensures KeyBacked(names, m, n, n[j].key) <==> n[j].key == PROTO && Idle(n[j].value)
  {
    MemberIsSmaller(n, j);
    HasKeyIff(m, n[j].key);
    FindsOnly(n, j);
    OwnOrAbsent(names, m, n[j].key);
    if n[j].key == PROTO {
      PrototypeMeetsIff(names, n[j].value);
    } else {
      AbsentDiffers(names, Get(names, Field(Object(m)), n[j].key), n[j].value);
    }
  }

  ghost predicate BackedMember(m: seq<Member>, stated: Member) {
    Unseen(stated, m) || (Find(m, stated.key) < |m| && Backed(m[Find(m, stated.key)].value, stated.value))
  }

  lemma {:induction false} ObjectsBack(names: Inherited, m: seq<Member>, n: seq<Member>)
    ensures Backs(names, Field(Object(m)), Field(Object(n))) <==> forall j :: 0 <= j < |n| ==> KeyBacked(names, m, n, n[j].key)
    ensures Backed(Object(m), Object(n)) <==> forall j :: 0 <= j < |n| ==> BackedMember(m, n[j])
  {
    forall j | 0 <= j < |n| ensures n[j].key in Keys(Field(Object(n))) {
      HasKeyIff(n, n[j].key);
    }
    forall key | key in Keys(Field(Object(n))) ensures HasKey(n, key) {
      HasKeyIff(n, key);
    }
    BackedObjects(m, n);
    hide Get, Find, Keys, Backed;
  }

  lemma {:induction false} BackedObjects(m: seq<Member>, n: seq<Member>)
    ensures Backed(Object(m), Object(n)) <==> forall j :: 0 <= j < |n| ==> BackedMember(m, n[j])
  {
    forall j | 0 <= j < |n| ensures Size(n[j].value) < SizeOfMembers(n) {
      MemberIsSmaller(n, j);
    }
    hide Unseen, Find;
  }

  /** Without such a `__proto__`, backed are the sub-trees. */
  lemma {:induction false} SubTreeIffBacked(a: Json, b: Json)
    requires Tree(a)
    ensures SubTree(a, b) <==> Backed(a, b) && !LacksProto(a, b)
    decreases Size(b)
  {
    if a.Array? && b.Array? {
      forall i | 0 <= i < |a.items| && i < |b.items|
        ensures Size(b.items[i]) < Size(b)
        ensures SubTree(a.items[i], b.items[i]) <==> Backed(a.items[i], b.items[i]) && !LacksProto(a.items[i], b.items[i])
      {
        ItemIsSmaller(b.items, i);
        ItemIsSmaller(a.items, i);
        SubTreeIffBacked(a.items[i], b.items[i]);
      }
    } else if a.Object? && b.Object? {
      var m, n := a.members, b.members;
      forall j | 0 <= j < |n|
        ensures Size(n[j].value) < Size(b) && (Unseen(n[j], m) ==> Find(m, n[j].key) == |m|)
        ensures Find(m, n[j].key) < |m| ==>
          var v := m[Find(m, n[j].key)].value;
          (SubTree(v, n[j].value) <==> Backed(v, n[j].value) && !LacksProto(v, n[j].value))
      {
        MemberIsSmaller(n, j);
        HasKeyIff(m, n[j].key);
        if Find(m, n[j].key) < |m| {
          MemberIsSmaller(m, Find(m, n[j].key));
          SubTreeIffBacked(m[Find(m, n[j].key)].value, n[j].value);
        }
      }
      hide Unseen, Find, Tree;
    }
  }

  /**
   * `statedDifferences` answers whether the stated tree is part of the rebuilt one, except when
   * it is but for a `__proto__` that is missing there; then it finds nothing all the same.
   */
  lemma {:induction false} BacksIffSubTree(names: Inherited, a: Json, b: Json)
    requires Tree(a) && Tree(b)
    ensures SubTree(a, b) <==> Backs(names, Field(a), Field(b)) && !LacksProto(a, b)
    ensures (Backs(names, Field(a), Field(b)) <==> SubTree(a, b)) <==> !(Backed(a, b) && LacksProto(a, b))
  {
    BacksIffBacked(names, a, b);
    SubTreeIffBacked(a, b);
  }

  // ---- what a caller can look at ----

  /** No object of the tree has a field of its own called `__proto__`. */
  ghost predicate NoProto(v: Json)
    decreases Size(v)
  {
    match v
    case Array(items) => forall i :: 0 <= i < |items| ==> (ItemIsSmaller(items, i); NoProto(items[i]))
    case Object(members) => forall i :: 0 <= i < |members| ==> (MemberIsSmaller(members, i); members[i].key != PROTO && NoProto(members[i].value))
    case _ => true
  }

  /** Both answers are right of trees without such a field; the stated one alone is enough for the second. */
  lemma {:induction false} RightWithoutProto(names: Inherited, a: Json, b: Json)
    requires Tree(a) && Tree(b) && NoProto(b)
    ensures Backs(names, Field(a), Field(b)) <==> SubTree(a, b)
    ensures NoProto(a) ==> (Agree(names, Field(a), Field(b)) <==> Same(a, b))
  {
    BacksIffSubTree(names, a, b);
    AgreeIffSame(names, a, b);
    NothingOneSided(a, b);
  }

  lemma {:induction false} NothingOneSided(a: Json, b: Json)
    requires NoProto(b)
    ensures !LacksProto(a, b) && (NoProto(a) ==> !OneSided(a, b))
    decreases Size(b)
  {
    if a.Array? && b.Array? {
      forall i | 0 <= i < |a.items| && i < |b.items|
        ensures Size(a.items[i]) < Size(a) && Size(b.items[i]) < Size(b)
        ensures !LacksProto(a.items[i], b.items[i]) && (NoProto(a.items[i]) ==> !OneSided(a.items[i], b.items[i]))
      {
        ItemIsSmaller(a.items, i);
        ItemIsSmaller(b.items, i);
        NothingOneSided(a.items[i], b.items[i]);
      }
    } else if a.Object? && b.Object? {
      var m, n := a.members, b.members;
      forall i, j | 0 <= i < |m| && 0 <= j < |n|
        ensures Size(m[i].value) < Size(a) && Size(n[j].value) < Size(b) && n[j].key != PROTO
        ensures !LacksProto(m[i].value, n[j].value) && (NoProto(m[i].value) ==> !OneSided(m[i].value, n[j].value))
      {
        MemberIsSmaller(m, i);
        MemberIsSmaller(n, j);
        NothingOneSided(m[i].value, n[j].value);
      }
      forall i | 0 <= i < |m| ensures Size(m[i].value) < Size(a) && (NoProto(a) ==> m[i].key != PROTO && NoProto(m[i].value)) {
        MemberIsSmaller(m, i);
      }
      forall j | 0 <= j < |n| ensures Size(n[j].value) < Size(b) && n[j].key != PROTO {
        MemberIsSmaller(n, j);
      }
    }
  }

  // ---- two inputs ----

  /** Two unequal reports with no difference found, and a statement no report backs that goes unnoticed. */
  lemma {:induction false} ProtoHidesADifference(names: Inherited)
    ensures var a, b := Object([]), Object([Member(PROTO, Object([]))]);
      && Agree(names, Field(a), Field(b)) && !Same(a, b)
      && Backs(names, Field(a), Field(b)) && !SubTree(a, b)
  {
    var a, b := Object([]), Object([Member(PROTO, Object([]))]);
    assert b.members[0].key == PROTO && Unseen(b.members[0], []);
    AgreeIffSame(names, a, b);
    BacksIffSubTree(names, a, b);
    ObjectsAlike([], b.members);
    BackedObjects([], b.members);
    assert LacksProto(a, b) && OneSided(a, b);
  }
}
