/**
 * The dedenting of `md` templates (packages/expression/src/index.ts, `dedentTemplateParts`,
 * `trimBoundaryBlankLines` and `findCommonIndent`).
 *
 * A template is a list of text and expression parts, but indentation is a matter of lines,
 * and lines run across parts.  The source scans characters part by part and carries a little
 * state over the part boundaries; the specification looks at the whole sequence of items
 * (characters and expressions), splits it into lines and says what happens to each line.
 */
module TemplateDedent {

  datatype Part = Text(value: string) | Expr(id: nat)

  datatype Item = Char(c: char) | Hole(id: nat)

  predicate Blank(c: char) {
    c == ' ' || c == '\t'
  }

  // ---------------------------------------------------------------------------
  // Boundary blank lines
  // ---------------------------------------------------------------------------

  /** The length of a blank line, with its end, at the beginning of a text; zero if there is none. */
  function BlankLine(s: string): (n: nat)
    ensures n <= |s|
  {
    if s == [] then 0
    else if s[0] == '\n' then 1
    else if s[0] == '\r' then if |s| > 1 && s[1] == '\n' then 2 else 0
    else if Blank(s[0]) && BlankLine(s[1..]) > 0 then BlankLine(s[1..]) + 1
    else 0
  }

  /** What the first regular expression leaves: the text without its leading blank lines. */
  function TrimLead(s: string): (r: string)
    ensures BlankLine(r) == 0
    ensures |r| <= |s| && r == s[|s| - |r|..]
    decreases |s|
  {
    if BlankLine(s) == 0 then s else TrimLead(s[BlankLine(s)..])
  }

  /** Line ends, each followed by blanks, up to the end of the text: the second regular expression. */
  predicate BlankTail(s: string)
    decreases |s|, 1
  {
    if s == [] then false
    else if s[0] == '\n' then AfterBreak(s[1..])
    else s[0] == '\r' && |s| > 1 && s[1] == '\n' && AfterBreak(s[2..])
  }

  predicate AfterBreak(s: string)
    decreases |s|, 2
  {
    s == [] || (Blank(s[0]) && AfterBreak(s[1..])) || BlankTail(s)
  }

  /** The leftmost match is cut off. */
  function TrimTail(s: string): (r: string)
    ensures |r| <= |s| && r == s[..|r|]
    ensures |r| == |s| || BlankTail(s[|r|..])
  {
    if s == [] then ""
    else if BlankTail(s) then ""
    else [s[0]] + TrimTail(s[1..])
  }

  predicate NoTail(s: string) {
    s == [] || (!BlankTail(s) && NoTail(s[1..]))
  }

  predicate IsFirstText(parts: seq<Part>, i: nat) {
    i < |parts| && parts[i].Text? && forall k | 0 <= k < i :: parts[k].Expr?
  }

  predicate IsLastText(parts: seq<Part>, i: nat) {
    i < |parts| && parts[i].Text? && forall k | i < k < |parts| :: parts[k].Expr?
  }

  /** `trimBoundaryBlankLines`: the first text loses leading blank lines, then the last text trailing ones. */
  function TrimFirst(parts: seq<Part>): (r: seq<Part>)
    ensures |r| == |parts|
    ensures forall i | 0 <= i < |parts| ::
              r[i] == if IsFirstText(parts, i) then Text(TrimLead(parts[i].value)) else parts[i]
  {
    seq(|parts|, i requires 0 <= i < |parts| =>
      if IsFirstText(parts, i) then Text(TrimLead(parts[i].value)) else parts[i])
  }

  function TrimLast(parts: seq<Part>): (r: seq<Part>)
    ensures |r| == |parts|
    ensures forall i | 0 <= i < |parts| ::
              r[i] == if IsLastText(parts, i) then Text(TrimTail(parts[i].value)) else parts[i]
  {
    seq(|parts|, i requires 0 <= i < |parts| =>
      if IsLastText(parts, i) then Text(TrimTail(parts[i].value)) else parts[i])
  }

  function Trimmed(parts: seq<Part>): (r: seq<Part>)
    ensures |r| == |parts|
  {
    TrimLast(TrimFirst(parts))
  }

  // ---------------------------------------------------------------------------
  // Lines
  // ---------------------------------------------------------------------------

  function Chars(s: string): (items: seq<Item>)
    ensures |items| == |s| && forall i | 0 <= i < |s| :: items[i] == Char(s[i])
  {
    seq(|s|, i requires 0 <= i < |s| => Char(s[i]))
  }

  function PartItems(p: Part): seq<Item> {
    if p.Text? then Chars(p.value) else [Hole(p.id)]
  }

  function Items(parts: seq<Part>): seq<Item> {
    if parts == [] then [] else PartItems(parts[0]) + Items(parts[1..])
  }

  /** The lines of a sequence of items, without their line feeds; there is always at least one. */
  function Lines(items: seq<Item>): (lines: seq<seq<Item>>)
    ensures lines != []
  {
    if items == [] then [[]]
    else
      var rest := Lines(items[1..]);
      if items[0] == Char('\n') then [[]] + rest else [[items[0]] + rest[0]] + rest[1..]
  }

  predicate BlankItem(x: Item) {
    x.Char? && Blank(x.c)
  }

  function Indent(line: seq<Item>): (n: nat)
    ensures n <= |line|
    ensures forall i | 0 <= i < n :: BlankItem(line[i])
    ensures n < |line| ==> !BlankItem(line[n])
  {
    if line != [] && BlankItem(line[0]) then 1 + Indent(line[1..]) else 0
  }

  /** A line with anything but blanks on it. */
  predicate Content(line: seq<Item>) {
    Indent(line) < |line|
  }

  function Indents(lines: seq<seq<Item>>): seq<nat> {
    if lines == [] then []
    else (if Content(lines[0]) then [Indent(lines[0])] else []) + Indents(lines[1..])
  }

  function Least(ns: seq<nat>): (n: nat)
    ensures ns == [] ==> n == 0
    ensures ns != [] ==> n in ns && forall k | k in ns :: n <= k
  {
    if ns == [] then 0
    else if |ns| == 1 then ns[0]
    else
      var rest := Least(ns[1..]);
      assert ns == [ns[0]] + ns[1..];
      if ns[0] < rest then ns[0] else rest
  }

  /** The smallest indentation of a line with content. */
  function CommonIndent(parts: seq<Part>): nat {
    Least(Indents(Lines(Items(parts))))
  }

  lemma {:induction false} IndentsAre(lines: seq<seq<Item>>, n: nat)
    ensures n in Indents(lines) <==> exists l | l in lines :: Content(l) && Indent(l) == n
    decreases |lines|
  {
    if lines != [] {
      IndentsAre(lines[1..], n);
      assert lines == [lines[0]] + lines[1..];
    }
  }

  // ---------------------------------------------------------------------------
  // Dedenting
  // ---------------------------------------------------------------------------

  /** Whether nothing but blanks has been seen on the line, and how many may still be dropped. */
  datatype Cursor = Cursor(atStart: bool, remaining: nat)

  function Drops(cur: Cursor, c: char): bool {
    cur.atStart && cur.remaining > 0 && Blank(c)
  }

  function Move(cur: Cursor, c: char, common: nat): Cursor {
    if c == '\n' then Cursor(true, common)
    else if Drops(cur, c) then Cursor(true, cur.remaining - 1)
    else Cursor(cur.atStart && Blank(c), cur.remaining)
  }

  function DedentText(s: string, cur: Cursor, common: nat): string {
    if s == [] then ""
    else (if Drops(cur, s[0]) then "" else [s[0]]) + DedentText(s[1..], Move(cur, s[0], common), common)
  }

  function MoveOver(s: string, cur: Cursor, common: nat): Cursor {
    if s == [] then cur else MoveOver(s[1..], Move(cur, s[0], common), common)
  }

  function DedentPart(p: Part, cur: Cursor, common: nat): Part {
    if p.Text? then Text(DedentText(p.value, cur, common)) else p
  }

  function MovePast(p: Part, cur: Cursor, common: nat): Cursor {
    if p.Text? then MoveOver(p.value, cur, common) else cur.(atStart := false)
  }

  function DedentParts(parts: seq<Part>, cur: Cursor, common: nat): (r: seq<Part>)
    ensures |r| == |parts|
    ensures forall i | 0 <= i < |parts| :: r[i].Text? <==> parts[i].Text?
    ensures forall i | 0 <= i < |parts| && parts[i].Expr? :: r[i] == parts[i]
  {
    if parts == [] then []
    else [DedentPart(parts[0], cur, common)] + DedentParts(parts[1..], MovePast(parts[0], cur, common), common)
  }

  /** `dedentTemplateParts` */
  function Dedent(parts: seq<Part>): seq<Part> {
    var trimmed := Trimmed(parts);
    var common := CommonIndent(trimmed);
    if common == 0 then trimmed else DedentParts(trimmed, Cursor(true, common), common)
  }

  // ---------------------------------------------------------------------------
  // The loops of the source
  // ---------------------------------------------------------------------------

  /** `trimBoundaryBlankLines` */
  method TrimBoundaryBlankLines(parts: seq<Part>) returns (trimmed: seq<Part>)
    ensures trimmed == Trimmed(parts)
  {
    trimmed := parts;
    var first := 0;
    while first < |trimmed| && !trimmed[first].Text?
      invariant 0 <= first <= |trimmed| && trimmed == parts
      invariant forall k | 0 <= k < first :: parts[k].Expr?
    {
      first := first + 1;
    }
    if first < |trimmed| {
      trimmed := trimmed[first := Text(TrimLead(trimmed[first].value))];
    }
    assert trimmed == TrimFirst(parts);
    var index := |trimmed| - 1;
    while index >= 0
      invariant -1 <= index < |trimmed| && trimmed == TrimFirst(parts)
      invariant forall k | index < k < |trimmed| :: trimmed[k].Expr?
    {
      if trimmed[index].Text? {
        ghost var before := trimmed;
        trimmed := trimmed[index := Text(TrimTail(trimmed[index].value))];
        assert trimmed == TrimLast(before);
        return;
      }
      index := index - 1;
    }
    assert trimmed == TrimLast(trimmed);
  }

  lemma LineHead(x: Item, rest: seq<Item>)
    ensures Lines([x] + rest)
         == if x == Char('\n') then [[]] + Lines(rest) else [[x] + Lines(rest)[0]] + Lines(rest)[1..]
  {
    assert ([x] + rest)[1..] == rest;
  }

  lemma {:induction false} LinesOfRest(line: seq<Item>, rest: seq<Item>)
    requires forall i | 0 <= i < |line| :: line[i] != Char('\n')
    ensures Lines(line + rest) == [line + Lines(rest)[0]] + Lines(rest)[1..]
    decreases |line|
  {
    if line == [] {
      assert line + rest == rest;
      assert line + Lines(rest)[0] == Lines(rest)[0];
    } else {
      var x, more := line[0], line[1..];
      LinesOfRest(more, rest);
      LineHead(x, more + rest);
      assert [x] + (more + rest) == line + rest;
      assert [x] + (more + Lines(rest)[0]) == line + Lines(rest)[0];
    }
  }

  lemma LinesOfBreak(line: seq<Item>, rest: seq<Item>)
    requires forall i | 0 <= i < |line| :: line[i] != Char('\n')
    ensures Lines(line + [Char('\n')] + rest) == [line] + Lines(rest)
  {
    var tail := [Char('\n')] + rest;
    assert tail[1..] == rest;
    assert line + [Char('\n')] + rest == line + tail;
    LinesOfRest(line, tail);
    assert line + [] == line;
  }

  lemma {:induction false} IndentSnoc(line: seq<Item>, x: Item)
    ensures Indent(line + [x]) == if !Content(line) && BlankItem(x) then |line| + 1 else Indent(line)
    ensures Content(line + [x]) <==> Content(line) || !BlankItem(x)
    decreases |line|
  {
    if line == [] {
      assert [x][1..] == [];
    } else {
      assert (line + [x])[1..] == line[1..] + [x];
      IndentSnoc(line[1..], x);
    }
  }

  /** The variables of `findCommonIndent` in the middle of `line`, before `rest`, when `all` is what it looks for. */
  ghost predicate Scanning(all: seq<nat>, indents: seq<nat>, line: seq<Item>, rest: seq<Item>) {
    && (forall i | 0 <= i < |line| :: line[i] != Char('\n'))
    && all == indents + Indents(Lines(line + rest))
  }

  lemma ScanBreak(all: seq<nat>, indents: seq<nat>, line: seq<Item>, rest: seq<Item>)
    requires Scanning(all, indents, line, [Char('\n')] + rest)
    ensures Scanning(all, indents + (if Content(line) then [Indent(line)] else []), [], rest)
  {
    LinesOfBreak(line, rest);
    assert line + ([Char('\n')] + rest) == line + [Char('\n')] + rest;
    assert [] + rest == rest;
    assert ([line] + Lines(rest))[1..] == Lines(rest);
  }

  lemma ScanItem(all: seq<nat>, indents: seq<nat>, line: seq<Item>, x: Item, rest: seq<Item>)
    requires Scanning(all, indents, line, [x] + rest) && x != Char('\n')
    ensures Scanning(all, indents, line + [x], rest)
  {
    assert line + ([x] + rest) == line + [x] + rest;
    assert forall i | 0 <= i <= |line| :: (line + [x])[i] == if i < |line| then line[i] else x;
  }

  lemma ScanEnd(all: seq<nat>, indents: seq<nat>, line: seq<Item>)
    requires Scanning(all, indents, line, [])
    ensures all == indents + (if Content(line) then [Indent(line)] else [])
  {
    LinesOfRest(line, []);
    assert line + [] == line && Lines(line) == [line];
    assert [line][1..] == [];
    assert Indents([line]) == (if Content(line) then [Indent(line)] else []) + Indents([line][1..]);
  }

  /** `findCommonIndent` */
  method FindCommonIndent(parts: seq<Part>) returns (common: nat)
    ensures common == CommonIndent(parts)
  {
    ghost var all := Indents(Lines(Items(parts)));
    ghost var line: seq<Item> := [];
    var indents: seq<nat> := [];
    var indent, lineHasContent := 0, false;
    assert line + Items(parts) == Items(parts);
    assert parts[0..] == parts;
    for i := 0 to |parts|
      invariant Scanning(all, indents, line, Items(parts[i..]))
      invariant indent == Indent(line) && lineHasContent == Content(line)
    {
      ghost var later := Items(parts[i + 1..]);
      if parts[i].Expr? {
        ghost var hole := Hole(parts[i].id);
        ScanItem(all, indents, line, hole, later);
        IndentSnoc(line, hole);
        line := line + [hole];
        lineHasContent := true;
      } else {
        indents, indent, lineHasContent, line := ScanText(parts[i].value, all, indents, indent, lineHasContent, line, later);
      }
    }
    assert parts[|parts|..] == [];
    ScanEnd(all, indents, line);
    if lineHasContent {
      indents := indents + [indent];
    } else {
      assert indents + [] == indents;
    }
    common := Minimum(indents);
  }

  /** The inner loop over the characters of one text; `atLineStart` is the absence of content. */
  method ScanText(text: string, ghost all: seq<nat>, indents0: seq<nat>, indent0: nat, content0: bool,
      ghost line0: seq<Item>, ghost later: seq<Item>)
      returns (indents: seq<nat>, indent: nat, lineHasContent: bool, ghost line: seq<Item>)
    requires Scanning(all, indents0, line0, Chars(text) + later)
    requires indent0 == Indent(line0) && content0 == Content(line0)
    ensures Scanning(all, indents, line, later)
    ensures indent == Indent(line) && lineHasContent == Content(line)
  {
    indents, indent, lineHasContent, line := indents0, indent0, content0, line0;
    assert text[0..] == text;
    for j := 0 to |text|
      invariant Scanning(all, indents, line, Chars(text[j..]) + later)
      invariant indent == Indent(line) && lineHasContent == Content(line)
    {
      var c := text[j];
      ghost var rest := Chars(text[j + 1..]) + later;
      assert Chars(text[j..]) + later == [Char(c)] + rest;
      if c == '\n' {
        ScanBreak(all, indents, line, rest);
        if lineHasContent {
          indents := indents + [indent];
        } else {
          assert indents + [] == indents;
        }
        indent, lineHasContent, line := 0, false, [];
        continue;
      }
      ScanItem(all, indents, line, Char(c), rest);
      IndentSnoc(line, Char(c));
      line := line + [Char(c)];
      if !lineHasContent && Blank(c) {
        indent := indent + 1;
        continue;
      }
      lineHasContent := true;
    }
    assert Chars(text[|text|..]) + later == later;
  }

  method Minimum(ns: seq<nat>) returns (n: nat)
    ensures n == Least(ns)
  {
    if |ns| == 0 {
      return 0;
    }
    n := ns[0];
    for i := 1 to |ns|
      invariant n in ns && forall k | 0 <= k < i :: n <= ns[k]
    {
      if ns[i] < n {
        n := ns[i];
      }
    }
  }

  /** `dedentTemplateParts`, with the two variables it carries from part to part. */
  method DedentTemplateParts(parts: seq<Part>) returns (result: seq<Part>)
    ensures result == Dedent(parts)
    ensures |result| == |parts| && forall i | 0 <= i < |parts| ::
              (result[i].Expr? <==> parts[i].Expr?) && (parts[i].Expr? ==> result[i] == parts[i])
  {
    var trimmed := TrimBoundaryBlankLines(parts);
    var common := FindCommonIndent(trimmed);
    if common == 0 {
      return trimmed;
    }
    result := DedentLines(trimmed, common);
  }

  method DedentLines(trimmed: seq<Part>, common: nat) returns (result: seq<Part>)
    ensures result == DedentParts(trimmed, Cursor(true, common), common)
  {
    var atLineStart, remaining := true, common;
    result := [];
    assert trimmed[0..] == trimmed;
    ghost var all := DedentParts(trimmed, Cursor(true, common), common);
    for i := 0 to |trimmed|
      invariant result + DedentParts(trimmed[i..], Cursor(atLineStart, remaining), common) == all
    {
      ghost var cur := Cursor(atLineStart, remaining);
      var part;
      if trimmed[i].Expr? {
        atLineStart := false;
        part := trimmed[i];
      } else {
        var value;
        value, atLineStart, remaining := DedentChars(trimmed[i].value, atLineStart, remaining, common);
        part := Text(value);
      }
      Shift(result, part, DedentParts(trimmed[i + 1..], Cursor(atLineStart, remaining), common));
      result := result + [part];
    }
    assert trimmed[|trimmed|..] == [];
  }

  lemma Shift<T>(done: seq<T>, x: T, rest: seq<T>)
    ensures done + ([x] + rest) == done + [x] + rest
  {
  }

  method DedentChars(text: string, start: bool, left: nat, common: nat)
      returns (value: string, atLineStart: bool, remaining: nat)
    ensures value == DedentText(text, Cursor(start, left), common)
    ensures Cursor(atLineStart, remaining) == MoveOver(text, Cursor(start, left), common)
  {
    value, atLineStart, remaining := "", start, left;
    assert text[0..] == text;
    ghost var all := DedentText(text, Cursor(start, left), common);
    ghost var end := MoveOver(text, Cursor(start, left), common);
    for j := 0 to |text|
      invariant value + DedentText(text[j..], Cursor(atLineStart, remaining), common) == all
      invariant MoveOver(text[j..], Cursor(atLineStart, remaining), common) == end
    {
      var c := text[j];
      ghost var cur := Cursor(atLineStart, remaining);
      ghost var later := DedentText(text[j + 1..], Move(cur, c, common), common);
      Shift(value, c, later);
      assert "" + later == later;
      if c == '\n' {
        value := value + [c];
        atLineStart := true;
        remaining := common;
        continue;
      }
      if atLineStart && remaining > 0 && Blank(c) {
        remaining := remaining - 1;
        continue;
      }
      value := value + [c];
      if !Blank(c) {
        atLineStart := false;
      }
    }
    assert text[|text|..] == [];
  }

  // ---------------------------------------------------------------------------
  // What dedenting does to each line
  // ---------------------------------------------------------------------------

  function Smaller(a: nat, b: nat): nat {
    if a < b then a else b
  }

  function Cut(line: seq<Item>, cur: Cursor): seq<Item> {
    if cur.atStart then line[Smaller(cur.remaining, Indent(line))..] else line
  }

  function CutAll(lines: seq<seq<Item>>, common: nat): (r: seq<seq<Item>>)
    ensures |r| == |lines|
    ensures forall i | 0 <= i < |lines| :: r[i] == Cut(lines[i], Cursor(true, common))
  {
    if lines == [] then [] else [Cut(lines[0], Cursor(true, common))] + CutAll(lines[1..], common)
  }

  function MoveItem(cur: Cursor, x: Item, common: nat): Cursor {
    if x.Char? then Move(cur, x.c, common) else cur.(atStart := false)
  }

  function DedentItems(items: seq<Item>, cur: Cursor, common: nat): seq<Item> {
    if items == [] then []
    else
      (if items[0].Char? && Drops(cur, items[0].c) then [] else [items[0]])
        + DedentItems(items[1..], MoveItem(cur, items[0], common), common)
  }

  lemma IndentHead(x: Item, line: seq<Item>)
    ensures Indent([x] + line) == if BlankItem(x) then 1 + Indent(line) else 0
  {
    assert ([x] + line)[1..] == line;
  }

  lemma CutHead(x: Item, line: seq<Item>, cur: Cursor, common: nat)
    requires x != Char('\n')
    ensures Cut([x] + line, cur)
         == (if x.Char? && Drops(cur, x.c) then [] else [x]) + Cut(line, MoveItem(cur, x, common))
  {
    IndentHead(x, line);
    if cur.atStart && BlankItem(x) && cur.remaining > 0 {
      var k := Smaller(cur.remaining - 1, Indent(line));
      assert ([x] + line)[k + 1..] == line[k..];
    } else {
      assert ([x] + line)[0..] == [x] + line;
    }
  }

  /** The line the cursor is on is cut as far as the cursor says, all later ones from their beginning. */
  function CutLines(lines: seq<seq<Item>>, cur: Cursor, common: nat): seq<seq<Item>>
    requires lines != []
  {
    [Cut(lines[0], cur)] + CutAll(lines[1..], common)
  }

  lemma CutItem(x: Item, rest: seq<Item>, cur: Cursor, common: nat)
    requires x != Char('\n')
    ensures CutLines(Lines([x] + rest), cur, common)
         == [(if x.Char? && Drops(cur, x.c) then [] else [x]) + Cut(Lines(rest)[0], MoveItem(cur, x, common))]
            + CutAll(Lines(rest)[1..], common)
  {
    LineHead(x, rest);
    var head, tail := [x] + Lines(rest)[0], Lines(rest)[1..];
    assert ([head] + tail)[1..] == tail;
    CutHead(x, Lines(rest)[0], cur, common);
  }

  /** The cursor and the lines agree about what the first item of a sequence does. */
  lemma CutFirst(x: Item, rest: seq<Item>, cur: Cursor, common: nat, below: seq<seq<Item>>)
    requires below == CutLines(Lines(rest), MoveItem(cur, x, common), common)
    ensures CutLines(Lines([x] + rest), cur, common)
         == if x == Char('\n') then [[]] + below
            else if x.Char? && Drops(cur, x.c) then below
            else [[x] + below[0]] + below[1..]
  {
    if x == Char('\n') {
    } else {
      CutItem(x, rest, cur, common);
      assert [] + below[0] == below[0];
    }
  }

  lemma DedentItemsHead(x: Item, rest: seq<Item>, cur: Cursor, common: nat)
    ensures var below := DedentItems(rest, MoveItem(cur, x, common), common);
            DedentItems([x] + rest, cur, common) == (if x.Char? && Drops(cur, x.c) then below else [x] + below)
  {
    assert ([x] + rest)[1..] == rest;
    var below := DedentItems(rest, MoveItem(cur, x, common), common);
    assert [] + below == below;
  }

  /** The first item, given the lines of what follows it. */
  lemma DedentedFirst(x: Item, rest: seq<Item>, cur: Cursor, common: nat, out: seq<Item>, below: seq<Item>)
    requires out == if x.Char? && Drops(cur, x.c) then below else [x] + below
    requires Lines(below) == CutLines(Lines(rest), MoveItem(cur, x, common), common)
    ensures Lines(out) == CutLines(Lines([x] + rest), cur, common)
  {
    LineHead(x, below);
    CutFirst(x, rest, cur, common, Lines(below));
  }

  lemma {:induction false} DedentedLines(items: seq<Item>, cur: Cursor, common: nat)
    ensures Lines(DedentItems(items, cur, common)) == CutLines(Lines(items), cur, common)
    decreases |items|
  {
    if items != [] {
      var x, rest := items[0], items[1..];
      var next := MoveItem(cur, x, common);
      DedentedLines(rest, next, common);
      DedentItemsHead(x, rest, cur, common);
      assert items == [x] + rest;
      DedentedFirst(x, rest, cur, common, DedentItems(items, cur, common), DedentItems(rest, next, common));
    }
  }

  lemma {:induction false} TextItems(s: string, cur: Cursor, common: nat, rest: seq<Item>)
    ensures DedentItems(Chars(s) + rest, cur, common)
         == Chars(DedentText(s, cur, common)) + DedentItems(rest, MoveOver(s, cur, common), common)
    decreases |s|
  {
    if s == [] {
      assert Chars(s) + rest == rest;
    } else {
      assert (Chars(s) + rest)[1..] == Chars(s[1..]) + rest;
      TextItems(s[1..], Move(cur, s[0], common), common, rest);
    }
  }

  lemma {:induction false} PartsItems(parts: seq<Part>, cur: Cursor, common: nat)
    ensures Items(DedentParts(parts, cur, common)) == DedentItems(Items(parts), cur, common)
    decreases |parts|
  {
    if parts != [] {
      var rest := Items(parts[1..]);
      match parts[0]
      case Expr(id) =>
        PartsItems(parts[1..], cur.(atStart := false), common);
        assert ([Hole(id)] + rest)[1..] == rest;
      case Text(s) =>
        PartsItems(parts[1..], MoveOver(s, cur, common), common);
        TextItems(s, cur, common, rest);
    }
  }

  lemma {:induction false} DropNothing(items: seq<Item>, cur: Cursor)
    requires cur.remaining == 0
    ensures DedentItems(items, cur, 0) == items
    decreases |items|
  {
    if items != [] {
      DropNothing(items[1..], MoveItem(cur, items[0], 0));
    }
  }

  lemma DedentByParts(parts: seq<Part>)
    ensures var t := Trimmed(parts); var common := CommonIndent(t);
            Items(Dedent(parts)) == DedentItems(Items(t), Cursor(true, common), common)
  {
    var t := Trimmed(parts);
    var common := CommonIndent(t);
    PartsItems(t, Cursor(true, common), common);
    DropNothing(Items(t), Cursor(true, 0));
  }

  lemma CutLinesAll(lines: seq<seq<Item>>, common: nat)
    requires lines != []
    ensures CutLines(lines, Cursor(true, common), common) == CutAll(lines, common)
  {
  }

  /** Every line loses the common indent from its beginning and nothing else, and the lines stay the lines. */
  lemma DedentCutsLines(parts: seq<Part>)
    ensures Lines(Items(Dedent(parts))) == CutAll(Lines(Items(Trimmed(parts))), CommonIndent(Trimmed(parts)))
  {
    var t := Trimmed(parts);
    var common := CommonIndent(t);
    DedentByParts(parts);
    DedentedLines(Items(t), Cursor(true, common), common);
    CutLinesAll(Lines(Items(t)), common);
  }

  lemma CommonIsLeast(lines: seq<seq<Item>>, i: nat)
    requires i < |lines| && Content(lines[i])
    ensures Least(Indents(lines)) <= Indent(lines[i])
  {
    IndentsAre(lines, Indent(lines[i]));
    assert lines[i] in lines;
  }

  lemma CutContent(line: seq<Item>, common: nat)
    requires Content(line) && common <= Indent(line)
    ensures var after := Cut(line, Cursor(true, common));
            after == line[common..] && Content(after) && Indent(after) == Indent(line) - common
  {
    IndentAfterCut(line, common);
  }

  /** A line with content loses exactly the common indent, so lines keep their indentation to each other. */
  lemma ContentLineLosesCommonIndent(parts: seq<Part>, i: nat)
    requires i < |Lines(Items(Trimmed(parts)))| && Content(Lines(Items(Trimmed(parts)))[i])
    ensures |Lines(Items(Dedent(parts)))| == |Lines(Items(Trimmed(parts)))|
    ensures var before, after := Lines(Items(Trimmed(parts)))[i], Lines(Items(Dedent(parts)))[i];
            var common := CommonIndent(Trimmed(parts));
            && common <= Indent(before) && after == before[common..]
            && Content(after) && Indent(after) == Indent(before) - common
  {
    var lines := Lines(Items(Trimmed(parts)));
    DedentCutsLines(parts);
    CommonIsLeast(lines, i);
    CutContent(lines[i], CommonIndent(Trimmed(parts)));
  }

  lemma {:induction false} IndentAfterCut(line: seq<Item>, n: nat)
    requires n <= Indent(line)
    ensures Indent(line[n..]) == Indent(line) - n
    decreases n
  {
    if n > 0 {
      IndentAfterCut(line[1..], n - 1);
      assert line[1..][n - 1..] == line[n..];
    } else {
      assert line[0..] == line;
    }
  }

  /** A line of blanks only loses at most its blanks. */
  lemma BlankLineStaysBlank(line: seq<Item>, common: nat)
    requires !Content(line)
    ensures !Content(Cut(line, Cursor(true, common)))
  {
    IndentAfterCut(line, Smaller(common, Indent(line)));
  }

  /** Nothing is left to remove. */
  lemma DedentedHasNoCommonIndent(parts: seq<Part>)
    ensures CommonIndent(Dedent(parts)) == 0
  {
    DedentCutsLines(parts);
    CutHasNoCommonIndent(Lines(Items(Trimmed(parts))));
  }

  lemma CutHasNoCommonIndent(lines: seq<seq<Item>>)
    ensures Least(Indents(CutAll(lines, Least(Indents(lines))))) == 0
  {
    var common := Least(Indents(lines));
    var after := CutAll(lines, common);
    if Indents(lines) == [] {
      forall i | 0 <= i < |after|
        ensures !Content(after[i])
      {
        NoContentLine(lines, i);
        BlankLineStaysBlank(lines[i], common);
      }
      NoIndents(after);
    } else {
      IndentsAre(lines, common);
      var l :| l in lines && Content(l) && Indent(l) == common;
      var i :| 0 <= i < |lines| && lines[i] == l;
      CutContent(l, common);
      assert after[i] in after;
      IndentsAre(after, 0);
    }
  }

  lemma {:induction false} NoIndents(lines: seq<seq<Item>>)
    requires forall i | 0 <= i < |lines| :: !Content(lines[i])
    ensures Indents(lines) == []
    decreases |lines|
  {
    if lines != [] {
      NoIndents(lines[1..]);
    }
  }

  lemma NoContentLine(lines: seq<seq<Item>>, i: nat)
    requires Indents(lines) == [] && i < |lines|
    ensures !Content(lines[i])
  {
    IndentsAre(lines, Indent(lines[i]));
    assert lines[i] in lines;
  }

  /** Every line, blank or not, loses the common indent as far as it has it, and nothing else. */
  lemma LineLosesAtMostCommonIndent(parts: seq<Part>, i: nat)
    requires i < |Lines(Items(Trimmed(parts)))|
    ensures |Lines(Items(Dedent(parts)))| == |Lines(Items(Trimmed(parts)))|
    ensures var before, after := Lines(Items(Trimmed(parts)))[i], Lines(Items(Dedent(parts)))[i];
            var common := CommonIndent(Trimmed(parts));
            after == before[if common <= Indent(before) then common else Indent(before)..]
  {
    DedentCutsLines(parts);
  }

  function Joined(lines: seq<seq<Item>>): seq<Item>
    requires lines != []
  {
    if |lines| == 1 then lines[0] else lines[0] + [Char('\n')] + Joined(lines[1..])
  }

  lemma JoinedHead(x: Item, lines: seq<seq<Item>>)
    requires lines != []
    ensures Joined([[x] + lines[0]] + lines[1..]) == [x] + Joined(lines)
  {
    var longer := [[x] + lines[0]] + lines[1..];
    assert longer[1..] == lines[1..];
    if |lines| > 1 {
      assert ([x] + lines[0]) + [Char('\n')] + Joined(lines[1..]) == [x] + (lines[0] + [Char('\n')] + Joined(lines[1..]));
    }
  }

  lemma JoinedBreak(lines: seq<seq<Item>>)
    requires lines != []
    ensures Joined([[]] + lines) == [Char('\n')] + Joined(lines)
  {
    assert ([[]] + lines)[1..] == lines;
  }

  /** Lines are what lies between line feeds. */
  lemma {:induction false} LinesJoined(items: seq<Item>)
    ensures Joined(Lines(items)) == items && forall l | l in Lines(items) :: Char('\n') !in l
    decreases |items|
  {
    if items != [] {
      var rest := Lines(items[1..]);
      LinesJoined(items[1..]);
      assert items == [items[0]] + items[1..];
      if items[0] == Char('\n') {
        JoinedBreak(rest);
      } else {
        JoinedHead(items[0], rest);
      }
    }
  }

  // ---------------------------------------------------------------------------
  // What trimming and dedenting leave alone
  // ---------------------------------------------------------------------------

  predicate White(c: char) {
    c == ' ' || c == '\t' || c == '\r' || c == '\n'
  }

  /** The expressions and the characters that are not white space, in order. */
  function Visible(items: seq<Item>): seq<Item> {
    if items == [] then []
    else (if items[0].Char? && White(items[0].c) then [] else [items[0]]) + Visible(items[1..])
  }

  lemma VisibleHead(x: Item, rest: seq<Item>)
    ensures Visible([x] + rest) == (if x.Char? && White(x.c) then [] else [x]) + Visible(rest)
  {
    assert ([x] + rest)[1..] == rest;
  }

  lemma {:induction false} VisibleAppend(x: seq<Item>, y: seq<Item>)
    ensures Visible(x + y) == Visible(x) + Visible(y)
    decreases |x|
  {
    if x == [] {
      assert x + y == y;
    } else {
      VisibleAppend(x[1..], y);
      VisibleHead(x[0], x[1..] + y);
      VisibleHead(x[0], x[1..]);
      assert [x[0]] + x[1..] == x && [x[0]] + (x[1..] + y) == x + y;
    }
  }

  lemma {:induction false} WhiteIsInvisible(s: string)
    requires forall i | 0 <= i < |s| :: White(s[i])
    ensures Visible(Chars(s)) == []
    decreases |s|
  {
    if s != [] {
      assert Chars(s)[1..] == Chars(s[1..]);
      WhiteIsInvisible(s[1..]);
    }
  }

  lemma VisibleSplit(x: string, y: string)
    ensures Visible(Chars(x + y)) == Visible(Chars(x)) + Visible(Chars(y))
  {
    assert Chars(x + y) == Chars(x) + Chars(y);
    VisibleAppend(Chars(x), Chars(y));
  }

  /** Blank lines with their ends, as the first pattern takes them: a carriage return only before a line feed. */
  predicate BlankLinesOnly(s: string) {
    s == "" || (s[|s| - 1] == '\n' && WhiteOnly(s))
  }

  /** Line ends followed by blanks, as the second pattern takes them. */
  predicate LineEndsOnly(s: string) {
    s == "" || ((s[0] == '\n' || (s[0] == '\r' && |s| > 1 && s[1] == '\n')) && WhiteOnly(s))
  }

  predicate WhiteOnly(s: string) {
    forall i | 0 <= i < |s| :: Blank(s[i]) || s[i] == '\n' || (s[i] == '\r' && i + 1 < |s| && s[i + 1] == '\n')
  }

  lemma WhiteTail(s: string)
    requires s != []
    ensures WhiteOnly(s) ==> WhiteOnly(s[1..])
    ensures (Blank(s[0]) || s[0] == '\n') && WhiteOnly(s[1..]) ==> WhiteOnly(s)
    ensures |s| > 1 && s[0] == '\r' && s[1] == '\n' && WhiteOnly(s[1..]) ==> WhiteOnly(s)
  {
    if WhiteOnly(s) {
      forall i | 0 <= i < |s[1..]|
        ensures Blank(s[1..][i]) || s[1..][i] == '\n' || (s[1..][i] == '\r' && i + 1 < |s[1..]| && s[1..][i + 1] == '\n')
      {
        assert s[1..][i] == s[i + 1];
      }
    } else if WhiteOnly(s[1..]) {
      forall i | 0 < i < |s|
        ensures Blank(s[i]) || s[i] == '\n' || (s[i] == '\r' && i + 1 < |s| && s[i + 1] == '\n')
      {
        assert s[1..][i - 1] == s[i];
      }
    }
  }

  /** The second pattern matches what consists of line ends and blanks and begins with a line end. */
  lemma {:induction false} TailMeans(s: string)
    ensures BlankTail(s) <==> s != "" && LineEndsOnly(s)
    ensures AfterBreak(s) <==> WhiteOnly(s)
    decreases |s|
  {
    if s != [] {
      TailMeans(s[1..]);
      WhiteTail(s);
      if |s| > 1 {
        TailMeans(s[2..]);
        WhiteTail(s[1..]);
        assert s[1..][1..] == s[2..];
      }
    }
  }

  lemma WhiteAppend(x: string, y: string)
    requires WhiteOnly(x) && WhiteOnly(y)
    ensures WhiteOnly(x + y)
  {
  }

  /** A blank line at the beginning, and any text that begins with blank lines has one. */
  lemma {:induction false} BlankLineMeans(s: string)
    ensures BlankLinesOnly(s[..BlankLine(s)])
    ensures forall n | 0 < n <= |s| :: BlankLinesOnly(s[..n]) ==> 0 < BlankLine(s) <= n
    decreases |s|
  {
    if s != [] {
      var t, m := s[1..], BlankLine(s);
      BlankLineMeans(t);
      if Blank(s[0]) && m > 0 {
        assert s[..m] == [s[0]] + t[..m - 1];
        assert s[..m][1..] == t[..m - 1];
        WhiteTail(s[..m]);
      }
      forall n | 0 < n <= |s| && BlankLinesOnly(s[..n]) ensures 0 < m <= n {
        assert s[..n][0] == s[0];
        if Blank(s[0]) {
          WhiteTail(s[..n]);
          assert s[..n][1..] == t[..n - 1];
          assert n > 1 && t[..n - 1][n - 2] == s[..n][n - 1];
        }
      }
    }
  }

  predicate NoBlankLine(s: string) {
    forall n | 0 < n <= |s| :: !BlankLinesOnly(s[..n])
  }

  /** What has been cut from the beginning are blank lines, and all there are. */
  predicate LeadingCut(s: string, r: string) {
    && |r| <= |s| && s[|s| - |r|..] == r
    && BlankLinesOnly(s[..|s| - |r|]) && NoBlankLine(r)
  }

  predicate NoLineEnds(s: string, before: nat)
    requires before <= |s|
  {
    forall n | 0 <= n < before :: !LineEndsOnly(s[n..])
  }

  /** What has been cut from the end are line ends and blanks, from as far back as possible. */
  predicate TrailingCut(s: string, r: string) {
    && |r| <= |s| && s[..|r|] == r
    && LineEndsOnly(s[|r|..]) && NoLineEnds(s, |r|)
  }

  lemma {:induction false} LeadCut(s: string)
    ensures LeadingCut(s, TrimLead(s))
    decreases |s|
  {
    BlankLineMeans(s);
    var m := BlankLine(s);
    if m > 0 {
      LeadCut(s[m..]);
      MoreCut(s, m, TrimLead(s[m..]));
    } else {
      assert s[..0] == "" && s[0..] == s;
    }
  }

  lemma MoreCut(s: string, m: nat, r: string)
    requires 0 < m <= |s| && BlankLinesOnly(s[..m]) && LeadingCut(s[m..], r)
    ensures LeadingCut(s, r)
  {
    var t := s[m..];
    var k := |t| - |r|;
    assert s[..m + k] == s[..m] + t[..k] && s[m + k..] == t[k..];
    WhiteAppend(s[..m], t[..k]);
  }

  lemma {:induction false} TailCut(s: string)
    ensures TrailingCut(s, TrimTail(s))
    decreases |s|
  {
    if s == [] {
      assert s[0..] == "";
    } else {
      TailMeans(s);
      if BlankTail(s) {
        assert s[0..] == s;
      } else {
        TailCut(s[1..]);
        LongerTail(s, TrimTail(s[1..]));
      }
    }
  }

  lemma LongerTail(s: string, r: string)
    requires s != [] && TrailingCut(s[1..], r) && !LineEndsOnly(s)
    ensures TrailingCut(s, [s[0]] + r)
  {
    assert s[1..][|r|..] == s[|r| + 1..] && s[..|r| + 1] == [s[0]] + s[1..][..|r|];
    forall n | 0 <= n < |r| + 1 ensures !LineEndsOnly(s[n..]) {
      if n > 0 {
        assert s[1..][n - 1..] == s[n..];
      } else {
        assert s[0..] == s;
      }
    }
  }

  lemma LeadKeepsVisible(s: string, r: string)
    requires LeadingCut(s, r)
    ensures Visible(Chars(r)) == Visible(Chars(s))
  {
    var k := |s| - |r|;
    WhiteIsInvisible(s[..k]);
    VisibleSplit(s[..k], r);
    assert s[..k] + r == s && [] + Visible(Chars(r)) == Visible(Chars(r));
  }

  lemma TailKeepsVisible(s: string, r: string)
    requires TrailingCut(s, r)
    ensures Visible(Chars(r)) == Visible(Chars(s))
  {
    WhiteIsInvisible(s[|r|..]);
    VisibleSplit(r, s[|r|..]);
    assert r + s[|r|..] == s && Visible(Chars(r)) + [] == Visible(Chars(r));
  }

  lemma {:induction false} PartwiseVisible(parts: seq<Part>, others: seq<Part>)
    requires |parts| == |others|
    requires forall i | 0 <= i < |parts| :: Visible(PartItems(parts[i])) == Visible(PartItems(others[i]))
    ensures Visible(Items(parts)) == Visible(Items(others))
    decreases |parts|
  {
    if parts != [] {
      PartwiseVisible(parts[1..], others[1..]);
      VisibleAppend(PartItems(parts[0]), Items(parts[1..]));
      VisibleAppend(PartItems(others[0]), Items(others[1..]));
    }
  }

  lemma {:induction false} DedentItemsVisible(items: seq<Item>, cur: Cursor, common: nat)
    ensures Visible(DedentItems(items, cur, common)) == Visible(items)
    decreases |items|
  {
    if items != [] {
      var head := if items[0].Char? && Drops(cur, items[0].c) then [] else [items[0]];
      var next := MoveItem(cur, items[0], common);
      DedentItemsVisible(items[1..], next, common);
      VisibleAppend(head, DedentItems(items[1..], next, common));
      assert head != [] ==> head[1..] == [];
    }
  }

  lemma TrimFirstVisible(parts: seq<Part>)
    ensures Visible(Items(TrimFirst(parts))) == Visible(Items(parts))
  {
    var first := TrimFirst(parts);
    forall i | 0 <= i < |parts| ensures Visible(PartItems(parts[i])) == Visible(PartItems(first[i])) {
      if IsFirstText(parts, i) {
        LeadCut(parts[i].value);
        LeadKeepsVisible(parts[i].value, first[i].value);
      }
    }
    PartwiseVisible(parts, first);
  }

  lemma TrimLastVisible(parts: seq<Part>)
    ensures Visible(Items(TrimLast(parts))) == Visible(Items(parts))
  {
    var last := TrimLast(parts);
    forall i | 0 <= i < |parts| ensures Visible(PartItems(parts[i])) == Visible(PartItems(last[i])) {
      if IsLastText(parts, i) {
        TailCut(parts[i].value);
        TailKeepsVisible(parts[i].value, last[i].value);
      }
    }
    PartwiseVisible(parts, last);
  }

  /** Nothing but white space is ever lost: all expressions and all other characters stay, in order. */
  lemma VisibleKept(parts: seq<Part>)
    ensures Visible(Items(Dedent(parts))) == Visible(Items(parts))
  {
    var trimmed := Trimmed(parts);
    TrimFirstVisible(parts);
    TrimLastVisible(TrimFirst(parts));
    DedentByParts(parts);
    DedentItemsVisible(Items(trimmed), Cursor(true, CommonIndent(trimmed)), CommonIndent(trimmed));
  }

  /** Trimming takes blank lines from the beginning of the first text and then line ends with blanks from
      the end of the last text, all there are, and touches no other part. */
  lemma TrimmedAtTheEnds(parts: seq<Part>, i: nat)
    requires i < |parts|
    ensures var first, t := TrimFirst(parts)[i], Trimmed(parts)[i];
            && (if IsFirstText(parts, i) then first.Text? && LeadingCut(parts[i].value, first.value)
                else first == parts[i])
            && (if IsLastText(parts, i) then t.Text? && TrailingCut(first.value, t.value) else t == first)
  {
    var first := TrimFirst(parts)[i];
    assert IsLastText(TrimFirst(parts), i) <==> IsLastText(parts, i);
    if IsFirstText(parts, i) {
      LeadCut(parts[i].value);
    }
    if IsLastText(parts, i) {
      TailCut(first.value);
    }
  }

  // ---------------------------------------------------------------------------
  // Dedenting twice
  // ---------------------------------------------------------------------------

  lemma {:induction false} TailConcat(x: string, y: string)
    requires BlankTail(y)
    ensures BlankTail(x) ==> BlankTail(x + y)
    ensures AfterBreak(x) ==> AfterBreak(x + y)
    decreases |x|
  {
    var t := x + y;
    if x == [] {
      assert t == y;
    } else {
      assert t[1..] == x[1..] + y;
      TailConcat(x[1..], y);
      if |x| > 1 {
        assert t[2..] == x[2..] + y;
        TailConcat(x[2..], y);
      }
    }
  }

  lemma {:induction false} TrimTailNoTail(s: string)
    ensures NoTail(TrimTail(s))
    decreases |s|
  {
    if s != [] && !BlankTail(s) {
      var r := TrimTail(s);
      TrimTailNoTail(s[1..]);
      assert r[1..] == TrimTail(s[1..]);
      assert r + s[|r|..] == s;
      if |r| < |s| {
        TailConcat(r, s[|r|..]);
      } else {
        assert r == s;
      }
    }
  }

  lemma {:induction false} NoTailTrim(s: string)
    requires NoTail(s)
    ensures TrimTail(s) == s
    decreases |s|
  {
    if s != [] {
      NoTailTrim(s[1..]);
    }
  }

  lemma {:induction false} PrefixNoLead(s: string, n: nat)
    requires n <= |s| && BlankLine(s) == 0
    ensures BlankLine(s[..n]) == 0
    decreases n
  {
    if n > 0 {
      assert s[..n][1..] == s[1..][..n - 1];
      if Blank(s[0]) {
        PrefixNoLead(s[1..], n - 1);
      }
    }
  }

  /** Dropping blanks at the beginning of lines makes no new blank first line … */
  lemma {:induction false} DedentNoLead(s: string, cur: Cursor, common: nat)
    requires BlankLine(s) == 0
    ensures BlankLine(DedentText(s, cur, common)) == 0
    decreases |s|
  {
    if s != [] {
      var next := Move(cur, s[0], common);
      var rest := DedentText(s[1..], next, common);
      var d := DedentText(s, cur, common);
      if Blank(s[0]) {
        DedentNoLead(s[1..], next, common);
        if Drops(cur, s[0]) {
          assert d == rest;
        } else {
          assert d[1..] == rest;
        }
      } else if s[0] == '\r' && |s| > 1 {
        assert rest[0] == s[1];
      }
    }
  }

  lemma {:induction false} DedentAfterBreak(s: string, cur: Cursor, common: nat)
    requires AfterBreak(DedentText(s, cur, common))
    ensures AfterBreak(s)
    decreases |s|
  {
    if s != [] {
      var next := Move(cur, s[0], common);
      var rest := DedentText(s[1..], next, common);
      var d := DedentText(s, cur, common);
      if Drops(cur, s[0]) {
        assert d == rest;
        DedentAfterBreak(s[1..], next, common);
      } else {
        assert d[1..] == rest;
        if Blank(s[0]) || s[0] == '\n' {
          DedentAfterBreak(s[1..], next, common);
        } else {
          DedentCarriage(s, cur, common);
        }
      }
    }
  }

  /** A carriage return before a line feed stays next to it. */
  lemma {:induction false} DedentCarriage(s: string, cur: Cursor, common: nat)
    requires s != [] && !Blank(s[0]) && s[0] != '\n' && BlankTail(DedentText(s, cur, common))
    ensures BlankTail(s)
    decreases |s|, 0
  {
    var next := Move(cur, s[0], common);
    var d := DedentText(s, cur, common);
    assert d[1..] == DedentText(s[1..], next, common);
    assert |s| > 1 && s[1] == '\n';
    var after := Move(next, s[1], common);
    assert s[1..][1..] == s[2..];
    assert d[2..] == DedentText(s[2..], after, common);
    DedentAfterBreak(s[2..], after, common);
  }

  lemma {:induction false} DedentBlankTail(s: string, cur: Cursor, common: nat)
    requires BlankTail(DedentText(s, cur, common))
    ensures !NoTail(s)
    decreases |s|
  {
    if s != [] {
      var next := Move(cur, s[0], common);
      var d := DedentText(s, cur, common);
      if Drops(cur, s[0]) {
        assert d == DedentText(s[1..], next, common);
        DedentBlankTail(s[1..], next, common);
      } else {
        assert d[1..] == DedentText(s[1..], next, common);
        if s[0] == '\n' {
          DedentAfterBreak(s[1..], next, common);
        } else {
          DedentCarriage(s, cur, common);
        }
      }
    }
  }

  /** … and no new blank lines at the end. */
  lemma {:induction false} DedentNoTail(s: string, cur: Cursor, common: nat)
    requires NoTail(s)
    ensures NoTail(DedentText(s, cur, common))
    decreases |s|
  {
    if s != [] {
      var next := Move(cur, s[0], common);
      DedentNoTail(s[1..], next, common);
      if !Drops(cur, s[0]) {
        var d := DedentText(s, cur, common);
        assert d[1..] == DedentText(s[1..], next, common);
        if BlankTail(d) {
          DedentBlankTail(s, cur, common);
        }
      } else {
        assert DedentText(s, cur, common) == DedentText(s[1..], next, common);
      }
    }
  }

  /** Trimming has nothing to do. */
  ghost predicate Stable(parts: seq<Part>) {
    && (forall i: nat | IsFirstText(parts, i) :: BlankLine(parts[i].value) == 0)
    && (forall i: nat | IsLastText(parts, i) :: NoTail(parts[i].value))
  }

  lemma TrimmedIsStable(parts: seq<Part>)
    ensures Stable(Trimmed(parts))
  {
    var f, t := TrimFirst(parts), Trimmed(parts);
    forall i: nat | IsFirstText(t, i)
      ensures BlankLine(t[i].value) == 0
    {
      assert IsFirstText(parts, i);
      if IsLastText(f, i) {
        PrefixNoLead(f[i].value, |t[i].value|);
      }
    }
    forall i: nat | IsLastText(t, i)
      ensures NoTail(t[i].value)
    {
      assert IsLastText(f, i);
      TrimTailNoTail(f[i].value);
    }
  }

  lemma StableTrim(parts: seq<Part>)
    requires Stable(parts)
    ensures Trimmed(parts) == parts
  {
    assert TrimFirst(parts) == parts;
    forall i | 0 <= i < |parts|
      ensures TrimLast(parts)[i] == parts[i]
    {
      StableTrimAt(parts, i);
    }
  }

  lemma StableTrimAt(parts: seq<Part>, i: nat)
    requires i < |parts| && (IsLastText(parts, i) ==> NoTail(parts[i].value))
    ensures TrimLast(parts)[i] == parts[i]
  {
    if IsLastText(parts, i) {
      NoTailTrim(parts[i].value);
    }
  }

  lemma {:induction false} TextAt(parts: seq<Part>, cur: Cursor, common: nat, i: nat) returns (at: Cursor)
    requires i < |parts| && parts[i].Text?
    ensures DedentParts(parts, cur, common)[i] == Text(DedentText(parts[i].value, at, common))
    decreases |parts|
  {
    if i == 0 {
      at := cur;
    } else {
      at := TextAt(parts[1..], MovePast(parts[0], cur, common), common, i - 1);
    }
  }

  lemma DedentIsStable(parts: seq<Part>, common: nat)
    requires Stable(parts)
    ensures Stable(DedentParts(parts, Cursor(true, common), common))
  {
    var cur := Cursor(true, common);
    var d := DedentParts(parts, cur, common);
    forall i: nat | IsFirstText(d, i)
      ensures BlankLine(d[i].value) == 0
    {
      assert IsFirstText(parts, i);
      var at := TextAt(parts, cur, common, i);
      DedentNoLead(parts[i].value, at, common);
    }
    forall i: nat | IsLastText(d, i)
      ensures NoTail(d[i].value)
    {
      assert IsLastText(parts, i);
      var at := TextAt(parts, cur, common, i);
      DedentNoTail(parts[i].value, at, common);
    }
  }

  /** Dedenting a dedented template changes nothing. */
  lemma DedentIdempotent(parts: seq<Part>)
    ensures Dedent(Dedent(parts)) == Dedent(parts)
  {
    var t := Trimmed(parts);
    TrimmedIsStable(parts);
    DedentIsStable(t, CommonIndent(t));
    StableTrim(Dedent(parts));
    DedentedHasNoCommonIndent(parts);
  }
}
