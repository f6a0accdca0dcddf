/**
 The drop-in file that registers a service: its printer, its line-scanning parser,
 and exactly which operation lists survive the round trip.
 */
module Registration {

  /** The longest line, in bytes, that the scanner's buffer can hold with its end. */
  const MAX_LINE: nat := 65535

  datatype Registration = Registration(name: string, operations: seq<string>)

  // ------------------------------------------------------------- the text

  predicate IsSpace(c: char) {
    || '\t' <= c <= '\r' || c == ' ' || c == '\U{85}' || c == '\U{A0}' || c == '\U{1680}'
    || '\U{2000}' <= c <= '\U{200A}' || c == '\U{2028}' || c == '\U{2029}' || c == '\U{202F}'
    || c == '\U{205F}' || c == '\U{3000}'
  }

  function TrimLeft(s: string): string {
    if s != "" && IsSpace(s[0]) then TrimLeft(s[1..]) else s
  }

  function TrimRight(s: string): string {
    if s != "" && IsSpace(s[|s| - 1]) then TrimRight(s[..|s| - 1]) else s
  }

  function Trim(s: string): string {
    TrimRight(TrimLeft(s))
  }

  predicate Trimmed(s: string) {
    s == "" || (!IsSpace(s[0]) && !IsSpace(s[|s| - 1]))
  }

  /** The first place of `c`, or the length where there is none. */
  function Index(s: string, c: char): (i: nat)
    ensures i <= |s| && c !in s[..i] && (i < |s| ==> s[i] == c)
  {
    if s == "" || s[0] == c then 0
    else
      var i := Index(s[1..], c);
      assert s[..i + 1] == [s[0]] + s[1..][..i];
      i + 1
  }

  function Split(s: string, c: char): seq<string>
    decreases |s|
  {
    var i := Index(s, c);
    if i == |s| then [s] else [s[..i]] + Split(s[i + 1..], c)
  }

  function Join(parts: seq<string>, sep: string): string {
    if parts == [] then ""
    else if |parts| == 1 then parts[0]
    else parts[0] + sep + Join(parts[1..], sep)
  }

  /** The length of a character in UTF-8. */
  function Bytes(c: char): nat {
    if c < '\U{80}' then 1 else if c < '\U{800}' then 2 else if c < '\U{10000}' then 3 else 4
  }

  function Width(s: string): nat {
    if s == "" then 0 else Bytes(s[0]) + Width(s[1..])
  }

  function DropReturn(line: string): string {
    if line != "" && line[|line| - 1] == '\r' then line[..|line| - 1] else line
  }

  // ------------------------------------------------- the printer and parser

  function HeaderLine(name: string): string {
    "[service." + name + "]"
  }

  function OperationsLine(ops: seq<string>): string {
    "operations = " + Join(ops, ", ")
  }

  function Content(name: string, ops: seq<string>): string {
    HeaderLine(name) + "\n" + OperationsLine(ops) + "\n"
  }

  /** The lines the scanner yields; it gives up at the first that is too long. */
  function Lines(data: string): seq<string>
    decreases |data|
  {
    if data == "" then []
    else if Width(FirstLine(data)) > MAX_LINE then []
    else [DropReturn(FirstLine(data))] + Lines(AfterLine(data))
  }

  function FirstLine(data: string): string {
    data[..Index(data, '\n')]
  }

  function AfterLine(data: string): (rest: string)
    ensures data != "" ==> |rest| < |data|
  {
    var i := Index(data, '\n');
    if i == |data| then "" else data[i + 1..]
  }

  /** Each part trimmed, the empty ones dropped. */
  function Fields(parts: seq<string>): seq<string> {
    if parts == [] then []
    else (if Trim(parts[0]) == "" then [] else [Trim(parts[0])]) + Fields(parts[1..])
  }

  function LineOperations(text: string): seq<string> {
    var line := Trim(text);
    if line == "" || line[0] == '[' || line[0] == '#' then []
    else
      var i := Index(line, '=');
      if i == |line| || Trim(line[..i]) != "operations" then []
      else Fields(Split(Trim(line[i + 1..]), ','))
  }

  function AllOperations(lines: seq<string>): seq<string> {
    if lines == [] then [] else LineOperations(lines[0]) + AllOperations(lines[1..])
  }

  method ParseRegistration(name: string, data: string) returns (reg: Registration)
    ensures reg == Registration(name, AllOperations(Lines(data)))
  {
    var ops, rest := [], data;
    while rest != ""
      invariant ops + AllOperations(Lines(rest)) == AllOperations(Lines(data))
      decreases |rest|
    {
      var text := FirstLine(rest);
      if Width(text) > MAX_LINE {
        break;
      }
      LinesFrom(rest);
      var more := ParseLine(DropReturn(text));
      Regrouped(ops, more, AllOperations(Lines(AfterLine(rest))));
      ops := ops + more;
      rest := AfterLine(rest);
    }
    return Registration(name, ops);
  }

  method ParseLine(text: string) returns (ops: seq<string>)
    ensures ops == LineOperations(text)
  {
    ops := [];
    var line := Trim(text);
    if line == "" || line[0] == '[' || line[0] == '#' {
      return;
    }
    var i := Index(line, '=');
    if i == |line| {
      return;
    }
    if Trim(line[..i]) == "operations" {
      ops := ParseList(Split(Trim(line[i + 1..]), ','));
    }
  }

  method ParseList(parts: seq<string>) returns (ops: seq<string>)
    ensures ops == Fields(parts)
  {
    ops := [];
    for k := 0 to |parts|
      invariant ops + Fields(parts[k..]) == Fields(parts)
    {
      FieldsFrom(parts, k);
      var op := Trim(parts[k]);
      Regrouped(ops, if op == "" then [] else [op], Fields(parts[k + 1..]));
      if op != "" {
        ops := ops + [op];
      }
    }
  }

  method Allows(reg: Registration, op: string) returns (yes: bool)
    ensures yes <==> op in reg.operations
  {
    for i := 0 to |reg.operations|
      invariant op !in reg.operations[..i]
    {
      if reg.operations[i] == op {
        return true;
      }
    }
    return false;
  }

  lemma Regrouped<T>(a: seq<T>, b: seq<T>, c: seq<T>)
    ensures a + (b + c) == a + b + c
  {
  }

  lemma FieldsFrom(parts: seq<string>, k: nat)
    requires k < |parts|
    ensures Fields(parts[k..]) == (if Trim(parts[k]) == "" then [] else [Trim(parts[k])]) + Fields(parts[k + 1..])
  {
    assert parts[k..][0] == parts[k] && parts[k..][1..] == parts[k + 1..];
  }

  lemma LinesFrom(data: string)
    requires data != "" && Width(FirstLine(data)) <= MAX_LINE
    ensures AllOperations(Lines(data)) ==
            LineOperations(DropReturn(FirstLine(data))) + AllOperations(Lines(AfterLine(data)))
  {
    assert Lines(data)[1..] == Lines(AfterLine(data));
  }

  // ---------------------------------------------------------- round trip

  /** An operation the printed list can carry. */
  predicate Clean(op: string) {
    op != "" && Trimmed(op) && ',' !in op && '\n' !in op
  }

  predicate AllClean(ops: seq<string>) {
    forall i :: 0 <= i < |ops| ==> Clean(ops[i])
  }

  lemma IndexAt(s: string, c: char, i: nat)
    requires i < |s| && s[i] == c && c !in s[..i]
    ensures Index(s, c) == i
  {
    var k := Index(s, c);
    assert forall j :: 0 <= j < i ==> s[..i][j] == s[j];
    assert forall j :: 0 <= j < k ==> s[..k][j] == s[j];
  }

  lemma IndexNone(s: string, c: char)
    requires c !in s
    ensures Index(s, c) == |s|
  {
  }

  lemma TrimSpaced(s: string)
    requires Trimmed(s)
    ensures Trim(s) == s && (s != "" ==> Trim(" " + s) == s)
  {
    assert (" " + s)[1..] == s;
  }

  lemma {:induction false} JoinShape(ops: seq<string>)
    requires AllClean(ops) && ops != []
    ensures var s := Join(ops, ", "); s != "" && Trimmed(s) && s[0] == ops[0][0] && '\n' !in s
  {
    if |ops| > 1 {
      JoinShape(ops[1..]);
    }
  }

  lemma SplitHead(a: string, rest: string, c: char)
    requires c !in a
    ensures Split(a + [c] + rest, c) == [a] + Split(rest, c)
  {
    var s := a + [c] + rest;
    assert s[..|a|] == a && s[|a| + 1..] == rest;
    IndexAt(s, c, |a|);
  }

  lemma LinesHead(a: string, rest: string)
    requires '\n' !in a
    ensures Lines(a + "\n" + rest) == if Width(a) > MAX_LINE then [] else [DropReturn(a)] + Lines(rest)
  {
    var s := a + "\n" + rest;
    assert s[..|a|] == a && s[|a| + 1..] == rest;
    IndexAt(s, '\n', |a|);
  }

  /** The lines of a file are read one after the other, and add up, until one is too long
      for the scanner. */
  lemma TextTells(a: string, rest: string)
    requires '\n' !in a
    ensures AllOperations(Lines(a + "\n" + rest)) ==
            if Width(a) > 65535 then [] else LineOperations(DropReturn(a)) + AllOperations(Lines(rest))
  {
    LinesHead(a, rest);
    if Width(a) <= MAX_LINE {
      assert ([DropReturn(a)] + Lines(rest))[1..] == Lines(rest);
    }
  }

  /** A line lists operations only under the one key, behind its first equals sign. */
  lemma LineTells(text: string, i: nat)
    requires i < |Trim(text)| && Trim(text)[i] == '=' && '=' !in Trim(text)[..i]
    ensures var line := Trim(text);
            LineOperations(text) ==
            if line[0] != '[' && line[0] != '#' && Trim(line[..i]) == "operations"
            then Fields(Split(Trim(line[i + 1..]), ',')) else []
  {
    IndexAt(Trim(text), '=', i);
  }

  lemma KeylessTells(text: string)
    requires '=' !in Trim(text)
    ensures LineOperations(text) == []
  {
    IndexNone(Trim(text), '=');
  }

  /** A first part, after a space or not, is trimmed to the operation. */
  lemma LeadTrims(op: string, lead: string)
    requires Clean(op) && (lead == "" || lead == " ")
    ensures Trim(lead + op) == op && ',' !in lead + op
  {
    TrimSpaced(op);
    assert "" + op == op;
  }

  lemma FieldsOfOne(op: string, lead: string)
    requires Clean(op) && (lead == "" || lead == " ")
    ensures Fields(Split(lead + op, ',')) == [op]
  {
    LeadTrims(op, lead);
    IndexNone(lead + op, ',');
    FieldsFrom([lead + op], 0);
  }

  lemma FieldsOfMore(op: string, lead: string, rest: string)
    requires Clean(op) && (lead == "" || lead == " ")
    ensures Fields(Split(lead + op + "," + rest, ',')) == [op] + Fields(Split(rest, ','))
  {
    LeadTrims(op, lead);
    SplitHead(lead + op, rest, ',');
    FieldsFrom([lead + op] + Split(rest, ','), 0);
  }

  /** Splitting the joined list, after a space or not, gives the operations back. */
  lemma {:induction false} FieldsOfJoin(ops: seq<string>, lead: string)
    requires AllClean(ops) && ops != [] && (lead == "" || lead == " ")
    ensures Fields(Split(lead + Join(ops, ", "), ',')) == ops
  {
    if |ops| == 1 {
      FieldsOfOne(ops[0], lead);
    } else {
      var rest := Join(ops[1..], ", ");
      FieldsOfJoin(ops[1..], " ");
      FieldsOfMore(ops[0], lead, " " + rest);
      JoinLeads(ops, lead);
      assert ops == [ops[0]] + ops[1..];
    }
  }

  lemma JoinLeads(ops: seq<string>, lead: string)
    requires |ops| > 1
    ensures lead + Join(ops, ", ") == lead + ops[0] + "," + (" " + Join(ops[1..], ", "))
  {
    var rest := Join(ops[1..], ", ");
    assert ", " == "," + " ";
    Regrouped(ops[0], ", ", rest);
    Regrouped(",", " ", rest);
    Regrouped(lead, ops[0], ", " + rest);
    Regrouped(lead + ops[0], ",", " " + rest);
  }

  lemma SpaceAfter(s: string)
    requires s != "" && Trimmed(s)
    ensures Trim(s + " ") == s
  {
    var t := s + " ";
    assert TrimLeft(t) == t;
    assert t[..|s|] == s && t[|s|] == ' ';
    assert TrimRight(t) == TrimRight(s);
  }

  lemma KeyTrims()
    ensures Trim("operations ") == "operations" && '=' !in "operations "
  {
    SpaceAfter("operations");
    assert "operations" + " " == "operations ";
  }

  /** A trimmed line that sets the operations yields the fields of its list. */
  lemma SettingLine(line: string, list: string)
    requires Trimmed(line) && Trimmed(list)
    requires |line| >= 12 && line[..11] == "operations " && line[11] == '=' && Trim(line[12..]) == list
    ensures LineOperations(line) == Fields(Split(list, ','))
  {
    KeyTrims();
    TrimSpaced(line);
    IndexAt(line, '=', 11);
    assert line[0] == line[..11][0] == 'o';
  }

  lemma EmptyLine()
    ensures LineOperations("operations = ") == []
  {
    var line := "operations =";
    EmptyLineTrims();
    assert line[..11] == "operations " && line[12..] == "";
    SettingLine(line, "");
    IndexNone("", ',');
    FieldsFrom([""], 0);
    TrimSpaced(line);
  }

  lemma EmptyLineTrims()
    ensures Trim("operations = ") == "operations ="
  {
    SpaceAfter("operations =");
    assert "operations =" + " " == "operations = ";
  }

  lemma ListLine(list: string)
    requires list != "" && Trimmed(list)
    ensures LineOperations("operations = " + list) == Fields(Split(list, ','))
  {
    var line := "operations = " + list;
    TrimSpaced(list);
    assert line[..11] == "operations " && line[12..] == " " + list;
    SettingLine(line, list);
  }

  lemma OperationsLineParses(ops: seq<string>)
    requires AllClean(ops)
    ensures LineOperations(OperationsLine(ops)) == ops
  {
    if ops == [] {
      EmptyLine();
      assert OperationsLine(ops) == "operations = ";
    } else {
      JoinShape(ops);
      ListLine(Join(ops, ", "));
      FieldsOfJoin(ops, "");
      assert "" + Join(ops, ", ") == Join(ops, ", ");
    }
  }

  lemma OperationsLineScans(ops: seq<string>)
    requires AllClean(ops)
    ensures '\n' !in OperationsLine(ops) && DropReturn(OperationsLine(ops)) == OperationsLine(ops)
  {
    if ops != [] {
      JoinShape(ops);
    }
  }

  lemma HeaderLineSkipped(name: string)
    ensures LineOperations(DropReturn(HeaderLine(name))) == []
  {
    var line := HeaderLine(name);
    TrimSpaced(line);
    assert line[0] == '[' && line[|line| - 1] == ']';
  }

  /** Two lines, each with its end, scan to the two, up to one that is too long. */
  lemma TwoLines(a: string, b: string)
    requires '\n' !in a && '\n' !in b
    ensures Lines(a + "\n" + b + "\n") ==
            if Width(a) > MAX_LINE then []
            else if Width(b) > MAX_LINE then [DropReturn(a)]
            else [DropReturn(a), DropReturn(b)]
  {
    var rest := b + "\n" + "";
    assert a + "\n" + b + "\n" == a + "\n" + rest;
    LinesHead(a, rest);
    LinesHead(b, "");
  }

  lemma {:induction false} TrimKeeps(s: string)
    ensures forall c :: c in Trim(s) ==> c in s
    ensures Trimmed(Trim(s))
  {
    TrimLeftKeeps(s);
    TrimRightKeeps(TrimLeft(s));
  }

  lemma {:induction false} TrimLeftKeeps(s: string)
    ensures forall c :: c in TrimLeft(s) ==> c in s
    ensures TrimLeft(s) != "" ==> !IsSpace(TrimLeft(s)[0])
  {
    if s != "" && IsSpace(s[0]) {
      TrimLeftKeeps(s[1..]);
    }
  }

  lemma {:induction false} TrimRightKeeps(s: string)
    ensures TrimRight(s) <= s
    ensures TrimRight(s) != "" ==> !IsSpace(TrimRight(s)[|TrimRight(s)| - 1])
  {
    if s != "" && IsSpace(s[|s| - 1]) {
      TrimRightKeeps(s[..|s| - 1]);
    }
  }

  lemma {:induction false} SplitParts(s: string, c: char)
    ensures forall p, x :: p in Split(s, c) && x in p ==> x in s && x != c
    decreases |s|
  {
    var i := Index(s, c);
    if i < |s| {
      SplitParts(s[i + 1..], c);
    } else {
      assert s[..i] == s;
    }
  }

  lemma {:induction false} FieldsClean(parts: seq<string>)
    requires forall p, x :: p in parts && x in p ==> x != ',' && x != '\n'
    ensures AllClean(Fields(parts))
  {
    if parts != [] {
      assert parts[0] in parts && forall p :: p in parts[1..] ==> p in parts;
      TrimKeeps(parts[0]);
      FieldsClean(parts[1..]);
    }
  }

  lemma LineClean(text: string)
    requires '\n' !in text
    ensures AllClean(LineOperations(text))
  {
    var line := Trim(text);
    TrimKeeps(text);
    var i := Index(line, '=');
    if i < |line| {
      var list := Trim(line[i + 1..]);
      TrimKeeps(line[i + 1..]);
      SplitParts(list, ',');
      FieldsClean(Split(list, ','));
    }
  }

  /** Whatever the data, the parser returns only operations that it would carry. */
  lemma {:induction false} ParsedClean(data: string)
    ensures AllClean(AllOperations(Lines(data)))
    decreases |data|
  {
    if data != "" {
      if Width(FirstLine(data)) <= MAX_LINE {
        LinesFrom(data);
        LineClean(DropReturn(FirstLine(data)));
        ParsedClean(AfterLine(data));
      }
    }
  }

  lemma CleanParses(name: string, ops: seq<string>)
    requires '\n' !in name && AllClean(ops)
    ensures AllOperations(Lines(Content(name, ops))) ==
            if Width(HeaderLine(name)) <= MAX_LINE && Width(OperationsLine(ops)) <= MAX_LINE then ops else []
  {
    var header, list := DropReturn(HeaderLine(name)), OperationsLine(ops);
    OperationsLineParses(ops);
    OperationsLineScans(ops);
    HeaderLineSkipped(name);
    TwoLines(HeaderLine(name), list);
    assert AllOperations([header]) == [] + AllOperations([]);
    assert AllOperations([header, list]) == ops by {
      assert [header, list][1..] == [list];
      assert AllOperations([list]) == ops + AllOperations([]);
    }
  }

  /** Exactly when parsing gives back what was printed: there is nothing to give back,
      or every operation is not empty, trimmed and free of commas and newlines, and
      both lines fit the scanner. */
  lemma RoundTripIff(name: string, ops: seq<string>)
    requires '\n' !in name
    ensures AllOperations(Lines(Content(name, ops))) == ops <==>
            || ops == []
            || (AllClean(ops) && Width(HeaderLine(name)) <= MAX_LINE && Width(OperationsLine(ops)) <= MAX_LINE)
  {
    ParsedClean(Content(name, ops));
    if AllClean(ops) {
      CleanParses(name, ops);
    }
  }
}
