/** The canonical text character by character, as sections 3.2.2 and 3.2.3 of RFC 8785 have it. */
module CanonicalText {
  import opened Wrappers
  import opened CanonicalJson

  // ---- order of keys ----

  /** Keys compare at the first code unit in which they differ, and a prefix comes first. */
  lemma {:induction false} LessIff(a: Text, b: Text)
    ensures Less(a, b) <==> (a < b || exists i :: 0 <= i < |a| && i < |b| && a[i] < b[i] && a[..i] == b[..i])
  {
    if a != [] && b != [] {
      LessIff(a[1..], b[1..]);
      assert a == [a[0]] + a[1..] && b == [b[0]] + b[1..];
      if a[0] == b[0] {
        if i :| 0 <= i < |a[1..]| && i < |b[1..]| && a[1..][i] < b[1..][i] && a[1..][..i] == b[1..][..i] {
          assert a[..i + 1] == [a[0]] + a[1..][..i] && b[..i + 1] == [b[0]] + b[1..][..i];
          assert a[i + 1] < b[i + 1];
        }
        if i :| 0 <= i < |a| && i < |b| && a[i] < b[i] && a[..i] == b[..i] {
          assert a[1..][..i - 1] == a[..i][1..] && b[1..][..i - 1] == b[..i][1..];
          assert a[1..][i - 1] < b[1..][i - 1];
        }
      } else if a[0] < b[0] {
        assert a[..0] == b[..0];
      } else {
        forall i | 0 < i < |a| && i < |b| ensures a[..i] != b[..i] {
          assert a[..i][0] == a[0] && b[..i][0] == b[0];
        }
      }
    }
  }

  // ---- lone surrogates ----

  predicate IsHigh(u: Unit) { 0xD800 <= u <= 0xDBFF }

  predicate IsLow(u: Unit) { 0xDC00 <= u <= 0xDFFF }

  /** The code unit at `i` is half of a surrogate pair without its other half beside it. */
  predicate IsLone(s: Text, i: nat)
    requires i < |s|
  {
    || (IsHigh(s[i]) && !(i + 1 < |s| && IsLow(s[i + 1])))
    || (IsLow(s[i]) && !(i > 0 && IsHigh(s[i - 1])))
  }

  lemma {:induction false} HasLoneSurrogateIff(s: Text)
    ensures HasLoneSurrogate(s) <==> exists i :: 0 <= i < |s| && IsLone(s, i)
  {
    if s == [] {
    } else if IsHigh(s[0]) && |s| > 1 && IsLow(s[1]) {
      HasLoneSurrogateIff(s[2..]);
      assert !IsLone(s, 0) && !IsLone(s, 1);
      LoneLater(s, 2);
    } else if IsHigh(s[0]) || IsLow(s[0]) {
      assert IsLone(s, 0);
    } else {
      HasLoneSurrogateIff(s[1..]);
      assert !IsLone(s, 0);
      LoneLater(s, 1);
    }
  }

  /** What is cut off ends in a whole character. */
  lemma {:induction false} LoneLater(s: Text, k: nat)
    requires 0 < k <= |s| && !IsHigh(s[k - 1])
    requires k < |s| && IsLow(s[k]) ==> IsLone(s, k)
    ensures (exists i :: 0 <= i < |s[k..]| && IsLone(s[k..], i)) <==> (exists i :: k <= i < |s| && IsLone(s, i))
  {
    forall i | 0 <= i < |s[k..]| ensures IsLone(s[k..], i) <==> IsLone(s, i + k) {
    }
    if i :| k <= i < |s| && IsLone(s, i) {
      assert IsLone(s[k..], i - k);
    }
  }

  // ---- escapes ----

  /** Two characters for the seven with a short escape, `\u00` with two lower-case digits for the other controls, and all else as it is. */
  lemma {:induction false} EscapesAreTheShortest(u: Unit)
    ensures Escaped(8) == [92, 98] && Escaped(9) == [92, 116] && Escaped(10) == [92, 110] && Escaped(12) == [92, 102] && Escaped(13) == [92, 114]
    ensures Escaped(34) == [92, 34] && Escaped(92) == [92, 92]
    ensures u < 32 && u !in {8, 9, 10, 12, 13} ==>
      var hex := [48, 49, 50, 51, 52, 53, 54, 55, 56, 57, 97, 98, 99, 100, 101, 102];
      Escaped(u) == [92, 117, 48, 48, hex[u / 16], hex[u % 16]]
    ensures u >= 32 && u != 34 && u != 92 ==> Escaped(u) == [u]
  {}

  // ---- the text of each kind of value ----

  /** A number is its decimal digits without a leading zero, after a minus if it is negative. */
  lemma {:induction false} NumberIsItsDigits(n: Integer)
    ensures 0 <= n < 10 ==> Serialize(Number(n)) == Some([48 + n])
    ensures n >= 10 ==> Serialize(Number(n / 10)).Some? && Serialize(Number(n)) == Some(Serialize(Number(n / 10)).value + [48 + n % 10])
    ensures n < 0 ==> Serialize(Number(-n)).Some? && Serialize(Number(n)) == Some([45] + Serialize(Number(-n)).value)
  {}

  lemma {:induction false} WordsAndStrings(s: Text)
    ensures Serialize(Null) == Some([110, 117, 108, 108])
    ensures Serialize(Bool(true)) == Some([116, 114, 117, 101]) && Serialize(Bool(false)) == Some([102, 97, 108, 115, 101])
    ensures Serialize(Str([])) == Some([34, 34])
    ensures Serialize(Str(s)).Some? ==> Serialize(Str(s)) == Some([34] + EscapedAll(s) + [34])
  {
    assert SerializeString([]) == Some(Quoted([])) && Quoted([]) == [34, 34];
  }

  /** Items in brackets, with commas between them. */
  lemma {:induction false} ArrayText(x: Json, rest: seq<Json>)
    ensures Serialize(Array([])) == Some([91, 93])
    ensures Serialize(x).Some? ==> Serialize(Array([x])) == Some([91] + Serialize(x).value + [93])
    ensures rest != [] && Serialize(x).Some? && Serialize(Array(rest)).Some? ==>
      Serialize(Array([x] + rest)) == Some([91] + Serialize(x).value + [44] + Serialize(Array(rest)).value[1..])
  {
    assert [x][1..] == [] && ([x] + rest)[1..] == rest;
    assert SerializeItems([]) == Some([]) && [91] + [] + [93] == [91, 93];
    if Serialize(x).Some? {
      assert SerializeItems([x]) == Some(Serialize(x).value + []);
      assert Serialize(x).value + [] == Serialize(x).value;
    }
    if rest != [] && Serialize(x).Some? && Serialize(Array(rest)).Some? {
      ItemsAreNotNothing(rest);
      Joined(91, Serialize(x).value, SerializeItems(rest).value, 93);
    }
  }

  lemma {:induction false} ItemsAreNotNothing(items: seq<Json>)
    requires items != []
    ensures SerializeItems(items).Some? ==> SerializeItems(items).value != []
  {
    TextIsNotNothing(items[0]);
  }

  lemma {:induction false} TextIsNotNothing(v: Json)
    ensures Serialize(v).Some? ==> Serialize(v).value != []
  {
    if v.Number? {
      DecimalIsNotNothing(if v.n < 0 then -v.n else v.n);
    }
  }

  lemma {:induction false} DecimalIsNotNothing(n: nat)
    ensures Decimal(n) != []
  {}

  /** Members in braces, the least key first, each key in quotes and a colon before its value. */
  lemma {:induction false} ObjectText(m: Member, rest: seq<Member>)
    requires forall k :: 0 <= k < |rest| ==> Less(m.key, rest[k].key)
    ensures Serialize(Object([])) == Some([123, 125])
    ensures Serialize(Str(m.key)).Some? && Serialize(m.value).Some? ==>
      Serialize(Object([m])) == Some([123] + Serialize(Str(m.key)).value + [58] + Serialize(m.value).value + [125])
    ensures rest != [] && Serialize(Str(m.key)).Some? && Serialize(m.value).Some? && Serialize(Object(rest)).Some? ==>
      Serialize(Object([m] + rest))
      == Some([123] + Serialize(Str(m.key)).value + [58] + Serialize(m.value).value + [44] + Serialize(Object(rest)).value[1..])
  {
    LeastStaysFirst(m, rest);
    LeastStaysFirst(m, []);
    NoMembers();
    assert [m] + [] == [m];
    ObjectIs([m]);
    ObjectIs([m] + rest);
    ObjectIs(rest);
    StringIs(m.key);
    hide Sort, Serialize, SerializeMembers, SerializeString;
    if SerializeString(m.key).Some? && Serialize(m.value).Some? {
      var key, value := SerializeString(m.key).value, Serialize(m.value).value;
      var head := key + [58] + value;
      MemberText(m, []);
      assert head + [] == head && [123] + head == [123] + key + [58] + value;
      if rest != [] && Serialize(Object(rest)).Some? {
        SortSize(rest);
        MembersAreNotNothing(Sort(rest));
        MemberText(m, Sort(rest));
        Joined(123, head, SerializeMembers(Sort(rest)).value, 125);
      }
    }
  }

  lemma {:induction false} StringIs(s: Text)
    ensures Serialize(Str(s)) == SerializeString(s)
  {}

  lemma {:induction false} NoMembers()
    ensures SerializeMembers([]) == Some([]) && Sort([]) == [] && Serialize(Object([])) == Some([123, 125])
  {
    assert [123] + [] + [125] == [123, 125];
  }

  lemma {:induction false} ObjectIs(members: seq<Member>)
    ensures var body := SerializeMembers(Sort(members));
      Serialize(Object(members)) == if body.None? then None else Some([123] + body.value + [125])
  {
    SortSize(members);
  }

  lemma {:induction false} MemberText(m: Member, sorted: seq<Member>)
    requires SerializeString(m.key).Some? && Serialize(m.value).Some? && SerializeMembers(sorted).Some?
    ensures SerializeMembers([m] + sorted)
      == Some(SerializeString(m.key).value + [58] + Serialize(m.value).value + Comma(SerializeMembers(sorted).value))
  {
    assert ([m] + sorted)[1..] == sorted;
  }

  /** What follows the first entry is the text of the others without its opening. */
  lemma {:induction false} Joined(open: Unit, head: Text, body: Text, close: Unit)
    ensures [open] + (head + ([44] + body)) + [close] == [open] + head + [44] + ([open] + body + [close])[1..]
  {
    assert ([open] + body + [close])[1..] == body + [close];
  }

  lemma {:induction false} MembersAreNotNothing(members: seq<Member>)
    requires SizeOfMembers(members) > 0
    ensures SerializeMembers(members).Some? ==> SerializeMembers(members).value != []
  {}

  lemma {:induction false} LeastStaysFirst(m: Member, rest: seq<Member>)
    requires forall k :: 0 <= k < |rest| ==> Less(m.key, rest[k].key)
    ensures Sort([m] + rest) == [m] + Sort(rest)
  {
    assert ([m] + rest)[1..] == rest;
    if rest != [] {
      FirstOfSorted(rest);
      var k :| 0 <= k < |rest| && rest[k] == Sort(rest)[0];
    }
  }

  lemma {:induction false} FirstOfSorted(members: seq<Member>)
    requires members != []
    ensures Sort(members) != [] && exists k :: 0 <= k < |members| && members[k] == Sort(members)[0]
  {
    if |members| > 1 {
      FirstOfSorted(members[1..]);
      var k :| 0 <= k < |members[1..]| && members[1..][k] == Sort(members[1..])[0];
      assert members[k + 1] == Sort(members[1..])[0];
    }
    assert Sort(members)[0] == members[0] || (|members| > 1 && Sort(members)[0] == Sort(members[1..])[0]);
  }
}
