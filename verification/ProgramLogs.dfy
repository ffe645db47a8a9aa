/**
 * Reading a program's own records out of a transaction's logs by following the invoke stack,
 * and the logs the runtime prints for a tree of successful calls.
 */
module ProgramLogs {
  import opened Decimals
  import opened Wrappers

  // ---- lines ----

  const PROGRAM := "Program "
  const DATA_PREFIX := "Program data: "
  const LOG_PREFIX := "Program log: "
  const TRUNCATED := "Log truncated"

  /** `\s` of a regular expression (section 22.2.2.9 of ECMA-262). */
  predicate IsSpace(c: char) {
    c == ' ' || '\t' <= c <= '\r' || c == '\U{a0}' || c == '\U{1680}' || '\U{2000}' <= c <= '\U{200a}'
    || c == '\U{2028}' || c == '\U{2029}' || c == '\U{202f}' || c == '\U{205f}' || c == '\U{3000}' || c == '\U{feff}'
  }

  /** `\S+`. */
  predicate IsToken(s: string) {
    s != "" && forall i :: 0 <= i < |s| ==> !IsSpace(s[i])
  }

  /** `\d+`. */
  predicate IsNumber(s: string) {
    s != "" && AllDigits(s)
  }

  /** The longest prefix without a space. */
  function Token(s: string): (r: string)
    ensures r <= s && (forall i :: 0 <= i < |r| ==> !IsSpace(r[i])) && (|r| < |s| ==> IsSpace(s[|r|]))
  {
    if s == "" || IsSpace(s[0]) then "" else [s[0]] + Token(s[1..])
  }

  /** `invoke [n]`. */
  predicate IsInvokeText(s: string) {
    && |s| > 9 && s[..8] == "invoke [" && s[|s| - 1] == ']' && IsNumber(s[8..|s| - 1])
  }

  /** The program and the rest of a line that reads `Program <id> <rest>`. */
  function Addressed(line: string): Option<(string, string)> {
    if !(PROGRAM <= line) then None else
    var id := Token(line[8..]);
    var rest := line[8 + |id|..];
    if id == "" || rest == "" || rest[0] != ' ' then None else Some((id, rest[1..]))
  }

  function Invoked(line: string): Option<string> {
    var (id, rest) :- Addressed(line);
    if IsInvokeText(rest) then Some(id) else None
  }

  predicate IsSuccess(line: string) {
    Addressed(line).Some? && Addressed(line).value.1 == "success"
  }

  // ---- the parser ----

  datatype Reader = Reader(stack: seq<string>, events: seq<string>, truncated: bool)

  const START := Reader([], [], false)

  function Read(r: Reader, line: string, program: string): Reader {
    if r.truncated then r
    else if line == TRUNCATED then r.(truncated := true)
    else if Invoked(line).Some? then r.(stack := r.stack + [Invoked(line).value])
    else if IsSuccess(line) then r.(stack := if r.stack == [] then [] else r.stack[..|r.stack| - 1])
    else if DATA_PREFIX <= line && r.stack != [] && r.stack[|r.stack| - 1] == program
    then r.(events := r.events + [line[|DATA_PREFIX|..]])
    else r
  }

  function ReadAll(r: Reader, lines: seq<string>, program: string): Reader {
    if lines == [] then r
    else Read(ReadAll(r, lines[..|lines| - 1], program), lines[|lines| - 1], program)
  }

  /** Collects the records `program` itself wrote; the index of a record is its place in `events`. */
  method ProgramLogEvents(logs: seq<string>, program: string) returns (events: seq<string>, truncated: bool)
    ensures var r := ReadAll(START, logs, program); events == r.events && truncated == r.truncated
  {
    var stack := [];
    events := [];
    for k := 0 to |logs|
      invariant ReadAll(START, logs[..k], program) == Reader(stack, events, false)
    {
      assert logs[..k + 1][..k] == logs[..k];
      var line := logs[k];
      if line == TRUNCATED {
        StaysTruncated(START, logs[..k + 1], logs[k + 1..], program);
        assert logs[..k + 1] + logs[k + 1..] == logs;
        return events, true;
      }
      var invoke := Invoked(line);
      if invoke.Some? {
        stack := stack + [invoke.value];
      } else if IsSuccess(line) {
        if stack != [] {
          stack := stack[..|stack| - 1];
        }
      } else if DATA_PREFIX <= line && stack != [] && stack[|stack| - 1] == program {
        events := events + [line[|DATA_PREFIX|..]];
      }
    }
    assert logs[..|logs|] == logs;
    truncated := false;
  }

  lemma {:induction false} ReadConcat(r: Reader, a: seq<string>, b: seq<string>, program: string)
    ensures ReadAll(r, a + b, program) == ReadAll(ReadAll(r, a, program), b, program)
  {
    if b == [] {
      assert a + b == a;
    } else {
      assert (a + b)[..|a + b| - 1] == a + b[..|b| - 1];
      ReadConcat(r, a, b[..|b| - 1], program);
    }
  }

  lemma {:induction false} ReadGrows(r: Reader, lines: seq<string>, program: string)
    ensures r.events <= ReadAll(r, lines, program).events
    ensures r.truncated ==> ReadAll(r, lines, program) == r
  {
    if lines != [] {
      ReadGrows(r, lines[..|lines| - 1], program);
    }
  }

  lemma {:induction false} StaysTruncated(r: Reader, a: seq<string>, b: seq<string>, program: string)
    requires ReadAll(r, a, program).truncated
    ensures ReadAll(r, a + b, program) == ReadAll(r, a, program)
  {
    ReadConcat(r, a, b, program);
    ReadGrows(ReadAll(r, a, program), b, program);
  }

  // ---- what the runtime prints ----

  /** What happens in a call: a nested call, a record, a line of free text, or a line of the runtime itself. */
  datatype Item =
    | Call(program: string, body: seq<Item>)
    | Data(payload: string)
    | Log(text: string)
    | Runtime(line: string)

  function InvokeLine(program: string, depth: nat): string { PROGRAM + program + " invoke [" + Decimal(depth) + "]" }

  function SuccessLine(program: string): string { PROGRAM + program + " success" }

  function Print(items: seq<Item>, depth: nat): seq<string>
    decreases items
  {
    if items == [] then [] else PrintItem(items[0], depth) + Print(items[1..], depth)
  }

  function PrintItem(item: Item, depth: nat): seq<string>
    decreases item
  {
    match item
    case Call(program, body) => [InvokeLine(program, depth)] + Print(body, depth + 1) + [SuccessLine(program)]
    case Data(payload) => [DATA_PREFIX + payload]
    case Log(text) => [LOG_PREFIX + text]
    case Runtime(line) => [line]
  }

  /** The records `program` wrote itself, in order, while `caller` runs. */
  function Records(items: seq<Item>, program: string, caller: Option<string>): seq<string>
    decreases items
  {
    if items == [] then [] else RecordsOf(items[0], program, caller) + Records(items[1..], program, caller)
  }

  function RecordsOf(item: Item, program: string, caller: Option<string>): seq<string>
    decreases item
  {
    match item
    case Call(callee, body) => Records(body, program, Some(callee))
    case Data(payload) => if caller == Some(program) then [payload] else []
    case Log(_) => []
    case Runtime(_) => []
  }

  // ---- lines the parser passes over ----

  /** Free text that reads like a line of the runtime when printed after `Program log:`. */
  predicate Misread(text: string) { text == "success" || IsInvokeText(text) }

  /** Exactly the texts that read like a line of the runtime: `success`, and `invoke [` with digits and `]`. */
  lemma {:induction false} MisreadIff(text: string)
    ensures Misread(text) <==>
      text == "success" || exists n :: Bracketed(n) == text && n != "" && forall i :: 0 <= i < |n| ==> '0' <= n[i] <= '9'
  {
    if IsInvokeText(text) {
      assert text == "invoke [" + text[8..|text| - 1] + "]";
      assert Bracketed(text[8..|text| - 1]) == text;
    }
    if n :| Bracketed(n) == text && n != "" && forall i :: 0 <= i < |n| ==> '0' <= n[i] <= '9' {
      assert text[8..|text| - 1] == n;
    }
  }

  function Bracketed(n: string): string { "invoke [" + n + "]" }

  predicate Inert(line: string) {
    line != TRUNCATED && Invoked(line).None? && !IsSuccess(line) && !(DATA_PREFIX <= line)
  }

  ghost predicate Legible(items: seq<Item>)
    decreases items
  {
    items == [] || (LegibleItem(items[0]) && Legible(items[1..]))
  }

  ghost predicate LegibleItem(item: Item)
    decreases item
  {
    match item
    case Call(program, body) => IsToken(program) && Legible(body)
    case Data(payload) => !Misread(payload)
    case Log(text) => !Misread(text)
    case Runtime(line) => Inert(line)
  }

  lemma {:induction false} TokenOf(id: string, rest: string)
    requires (forall i :: 0 <= i < |id| ==> !IsSpace(id[i])) && (rest == "" || IsSpace(rest[0]))
    ensures Token(id + rest) == id
  {
    if id != "" {
      assert (id + rest)[1..] == id[1..] + rest;
      TokenOf(id[1..], rest);
    } else {
      assert id + rest == rest;
    }
  }

  /** `Program <id> <rest>` is read back as that program and that rest. */
  lemma {:induction false} AddressedLine(id: string, rest: string)
    requires IsToken(id)
    ensures Addressed(PROGRAM + id + " " + rest) == Some((id, rest))
  {
    var line := PROGRAM + id + " " + rest;
    assert line[8..] == id + (" " + rest);
    TokenOf(id, " " + rest);
    assert line[8 + |id|..] == " " + rest;
  }

  lemma {:induction false} InvokeLineReads(program: string, depth: nat)
    requires IsToken(program)
    ensures Invoked(InvokeLine(program, depth)) == Some(program) && InvokeLine(program, depth) != TRUNCATED
  {
    var rest := "invoke [" + Decimal(depth) + "]";
    assert rest[8..|rest| - 1] == Decimal(depth);
    assert InvokeLine(program, depth) == PROGRAM + program + " " + rest;
    AddressedLine(program, rest);
    assert InvokeLine(program, depth)[0] == 'P' != TRUNCATED[0];
  }

  lemma {:induction false} SuccessLineReads(program: string)
    requires IsToken(program)
    ensures IsSuccess(SuccessLine(program)) && Invoked(SuccessLine(program)).None? && SuccessLine(program) != TRUNCATED
  {
    assert SuccessLine(program) == PROGRAM + program + " " + "success";
    AddressedLine(program, "success");
    assert SuccessLine(program)[0] == 'P' != TRUNCATED[0];
  }

  /** A record is read as one exactly when its payload does not read like a line of the runtime. */
  lemma {:induction false} DataLineReads(payload: string)
    ensures var line := DATA_PREFIX + payload;
      && line != TRUNCATED && (Invoked(line).None? && !IsSuccess(line) <==> !Misread(payload))
      && DATA_PREFIX <= line && line[|DATA_PREFIX|..] == payload
  {
    var line := DATA_PREFIX + payload;
    assert line == PROGRAM + "data:" + " " + payload;
    AddressedLine("data:", payload);
    assert line[0] == 'P' != TRUNCATED[0];
  }

  /** Free text is passed over exactly when it does not read like a line of the runtime. */
  lemma {:induction false} LogLineIsInertIff(text: string)
    ensures Inert(LOG_PREFIX + text) <==> !Misread(text)
  {
    var line := LOG_PREFIX + text;
    assert line == PROGRAM + "log:" + " " + text;
    AddressedLine("log:", text);
    assert line[0] == 'P' != TRUNCATED[0];
    assert line[8] == 'l' != DATA_PREFIX[8];
  }

  /** A line about a program is passed over when what follows its name is not `success` or `invoke [n]`. */
  lemma {:induction false} AddressedIsInert(program: string, rest: string)
    requires IsToken(program) && program != "data:" && !Misread(rest)
    ensures Inert(PROGRAM + program + " " + rest)
  {
    var line := PROGRAM + program + " " + rest;
    AddressedLine(program, rest);
    assert line[0] == 'P' != TRUNCATED[0];
    hide Misread, IsInvokeText, Addressed;
    if DATA_PREFIX <= line {
      RecordIsAddressed(line);
    }
  }

  lemma {:induction false} RecordIsAddressed(line: string)
    requires DATA_PREFIX <= line
    ensures Addressed(line) == Some(("data:", line[|DATA_PREFIX|..]))
  {
    assert line == PROGRAM + "data:" + " " + line[|DATA_PREFIX|..];
    AddressedLine("data:", line[|DATA_PREFIX|..]);
  }

  /** The runtime's own `consumed` line. */
  lemma {:induction false} ConsumedLineIsInert(program: string, units: string)
    requires IsToken(program) && program != "data:"
    ensures Inert(PROGRAM + program + " " + ("consumed " + units))
  {
    assert ("consumed " + units)[0] == 'c';
    AddressedIsInert(program, "consumed " + units);
  }

  // ---- the parser undoes the printer ----

  /** The running program when the stack is `stack`. */
  function Top(stack: seq<string>): Option<string> {
    if stack == [] then None else Some(stack[|stack| - 1])
  }

  lemma {:induction false} ReadOne(r: Reader, line: string, program: string)
    ensures ReadAll(r, [line], program) == Read(r, line, program)
  {
    assert [line][..0] == [];
  }

  lemma {:induction false} ReadsItem(r: Reader, item: Item, depth: nat, program: string)
    requires LegibleItem(item) && !r.truncated
    ensures ReadAll(r, PrintItem(item, depth), program) == r.(events := r.events + RecordsOf(item, program, Top(r.stack)))
    decreases item
  {
    match item
    case Call(callee, body) =>
      InvokeLineReads(callee, depth);
      SuccessLineReads(callee);
      var inside := r.(stack := r.stack + [callee]);
      ReadOne(r, InvokeLine(callee, depth), program);
      ReadsAll(inside, body, depth + 1, program);
      ReadConcat(r, [InvokeLine(callee, depth)], Print(body, depth + 1), program);
      ReadConcat(r, [InvokeLine(callee, depth)] + Print(body, depth + 1), [SuccessLine(callee)], program);
      ReadOne(ReadAll(inside, Print(body, depth + 1), program), SuccessLine(callee), program);
      assert (r.stack + [callee])[..|r.stack|] == r.stack;
    case Data(payload) =>
      DataLineReads(payload);
      ReadOne(r, DATA_PREFIX + payload, program);
    case Log(text) =>
      LogLineIsInertIff(text);
      ReadOne(r, LOG_PREFIX + text, program);
    case Runtime(line) =>
      ReadOne(r, line, program);
  }

  lemma {:induction false} ReadsAll(r: Reader, items: seq<Item>, depth: nat, program: string)
    requires Legible(items) && !r.truncated
    ensures ReadAll(r, Print(items, depth), program) == r.(events := r.events + Records(items, program, Top(r.stack)))
    decreases items
  {
    hide *;
    Unroll(items, depth, program, Top(r.stack));
    if items == [] {
      ReadNone(r, program);
      assert r.events + [] == r.events;
    } else {
      var first, rest := items[0], items[1..];
      var records := RecordsOf(first, program, Top(r.stack));
      ReadsItem(r, first, depth, program);
      ReadsAll(r.(events := r.events + records), rest, depth, program);
      ReadConcat(r, PrintItem(first, depth), Print(rest, depth), program);
      assert r.events + records + Records(rest, program, Top(r.stack)) == r.events + (records + Records(rest, program, Top(r.stack)));
    }
  }

  lemma {:induction false} ReadNone(r: Reader, program: string)
    ensures ReadAll(r, [], program) == r
  {}

  lemma {:induction false} Unroll(items: seq<Item>, depth: nat, program: string, caller: Option<string>)
    ensures items == [] ==> Print(items, depth) == [] && Records(items, program, caller) == []
    ensures items != [] ==>
      && Print(items, depth) == PrintItem(items[0], depth) + Print(items[1..], depth)
      && Records(items, program, caller) == RecordsOf(items[0], program, caller) + Records(items[1..], program, caller)
      && (Legible(items) ==> LegibleItem(items[0]) && Legible(items[1..]))
  {
    hide PrintItem, RecordsOf, LegibleItem;
  }

  /** The logs of any tree of successful calls give exactly the program's own records, at any depth, in order. */
  lemma {:induction false} ParserUndoesPrinter(items: seq<Item>, program: string)
    requires Legible(items)
    ensures ReadAll(START, Print(items, 1), program) == Reader([], Records(items, program, None), false)
  {
    ReadsAll(START, items, 1, program);
    assert [] + Records(items, program, None) == Records(items, program, None);
  }

  /** Logs cut off after any line, whatever follows the mark, give a prefix of those records, marked as truncated. */
  lemma {:induction false} TruncatedLogsGiveAPrefix(items: seq<Item>, program: string, cut: nat, rest: seq<string>)
    requires Legible(items) && cut <= |Print(items, 1)|
    ensures var r := ReadAll(START, Print(items, 1)[..cut] + [TRUNCATED] + rest, program);
      r.truncated && r.events <= Records(items, program, None)
  {
    var lines := Print(items, 1);
    ParserUndoesPrinter(items, program);
    assert lines == lines[..cut] + lines[cut..];
    ReadConcat(START, lines[..cut], lines[cut..], program);
    var before := ReadAll(START, lines[..cut], program);
    ReadGrows(before, lines[cut..], program);
    ReadConcat(START, lines[..cut], [TRUNCATED], program);
    ReadOne(before, TRUNCATED, program);
    StaysTruncated(START, lines[..cut] + [TRUNCATED], rest, program);
  }

  /** A call that logs `success` and then writes a record. */
  function EarlySuccess(program: string, payload: string): seq<Item> {
    [Call(program, [Log("success")] + [Data(payload)])]
  }

  lemma {:induction false} EarlySuccessPrints(program: string, payload: string)
    ensures Print(EarlySuccess(program, payload), 1)
      == [InvokeLine(program, 1)] + [LOG_PREFIX + "success"] + [DATA_PREFIX + payload] + [SuccessLine(program)]
    ensures Records(EarlySuccess(program, payload), program, None) == [payload]
  {
    var last := [Data(payload)];
    var body := [Log("success")] + last;
    assert body[1..] == last && last[1..] == [] && EarlySuccess(program, payload)[1..] == [];
    assert Print(last, 2) == [DATA_PREFIX + payload];
    assert Print(body, 2) == [LOG_PREFIX + "success"] + [DATA_PREFIX + payload];
    assert Records(last, program, Some(program)) == [payload];
    assert Records(body, program, Some(program)) == [payload];
  }

  /** The message ends the call for the parser, and the record after it is lost. */
  lemma {:induction false} SuccessMessageLosesARecord(program: string, payload: string)
    requires IsToken(program) && !Misread(payload)
    ensures Records(EarlySuccess(program, payload), program, None) == [payload]
    ensures ReadAll(START, Print(EarlySuccess(program, payload), 1), program).events == []
  {
    var inside := Reader([program], [], false);
    assert Read(START, InvokeLine(program, 1), program) == inside by { InvokeLineReads(program, 1); }
    assert Read(inside, LOG_PREFIX + "success", program) == START by { SuccessMessagePops(inside, program); }
    assert Read(START, DATA_PREFIX + payload, program) == START by { DataLineReads(payload); }
    assert Read(START, SuccessLine(program), program) == START by { SuccessLineReads(program); }
    hide *;
    EarlySuccessPrints(program, payload);
    ReadFour(START, inside, START, START, START,
             InvokeLine(program, 1), LOG_PREFIX + "success", DATA_PREFIX + payload, SuccessLine(program), program);
  }

  lemma {:induction false} SuccessMessagePops(r: Reader, program: string)
    requires r.stack != [] && !r.truncated
    ensures Read(r, LOG_PREFIX + "success", program) == r.(stack := r.stack[..|r.stack| - 1])
  {
    var line := LOG_PREFIX + "success";
    assert line == PROGRAM + "log:" + " " + "success" && line[0] == 'P' != TRUNCATED[0];
    AddressedLine("log:", "success");
  }

  lemma {:induction false} ReadFour(r0: Reader, r1: Reader, r2: Reader, r3: Reader, r4: Reader, a: string, b: string, c: string, d: string, program: string)
    requires Read(r0, a, program) == r1 && Read(r1, b, program) == r2 && Read(r2, c, program) == r3 && Read(r3, d, program) == r4
    ensures ReadAll(r0, [a] + [b] + [c] + [d], program) == r4
  {
    hide *;
    ReadOne(r0, a, program);
    ReadOne(r1, b, program);
    ReadOne(r2, c, program);
    ReadOne(r3, d, program);
    ReadConcat(r0, [a], [b], program);
    ReadConcat(r0, [a] + [b], [c], program);
    ReadConcat(r0, [a] + [b] + [c], [d], program);
  }
}
