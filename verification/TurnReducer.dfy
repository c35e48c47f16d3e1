/**
 * The online reducer of a turn's events (packages/agent-executor/src/turn-reducer.ts).
 *
 * The source keeps a handful of variables and updates them once per event.  The
 * specification reads a whole trace: the text between two interruptions, the last text
 * and what came after it, the events that name one tool.  The theorems say that after
 * every trace the variables hold exactly what the specification says.
 */
module TurnReducer {
  import opened Options

  type Time = nat

  datatype Channel = Assistant | Thought

  datatype Context = Context(used: nat, size: nat)

  datatype Tokens = Tokens(total: nat)

  datatype Source = UsageUpdate | PromptResponse

  /** `text` is absent when the content is not a text block. */
  datatype Event =
    | Message(channel: Channel, text: Option<string>)
    | Tool(isCall: bool, id: string, title: Option<string>, name: Option<string>, kind: Option<string>,
        status: Option<string>, input: Option<string>)
    | Plan
    | Usage(context: Option<Context>, tokens: Option<Tokens>)
    | Other

  /** An observed event, or a snapshot taken with the usage the prompt response reported. */
  datatype Op = Observe(at: Time, event: Event) | Snapshot(usage: Option<Tokens>)

  datatype ToolSummary = ToolSummary(
    id: string, title: Option<string>, name: Option<string>, kind: Option<string>, status: Option<string>,
    input: Option<string>, startedAt: Time, updatedAt: Time, completedAt: Option<Time>)

  /** `order` and `tools` are the insertion-ordered map of the source. */
  datatype State = State(
    responses: seq<string>,
    open: Option<nat>,
    candidate: Option<nat>,
    order: seq<string>,
    tools: map<string, ToolSummary>,
    context: Option<(Context, Time)>,
    tokens: Option<(Source, Tokens)>,
    count: nat)

  const INIT := State([], None, None, [], map[], None, None, 0)

  // ---------------------------------------------------------------------------
  // One operation
  // ---------------------------------------------------------------------------

  function OrElse<T>(x: Option<T>, y: Option<T>): Option<T> {
    if x.Some? then x else y
  }

  predicate Terminal(status: Option<string>) {
    status == Some("completed") || status == Some("failed") || status == Some("cancelled")
  }

  function Merged(previous: Option<ToolSummary>, at: Time, e: Event): ToolSummary
    requires e.Tool?
  {
    match previous
    case None =>
      ToolSummary(e.id, e.title, e.name, e.kind, e.status, e.input, at, at, if Terminal(e.status) then Some(at) else None)
    case Some(p) =>
      var status := OrElse(e.status, p.status);
      ToolSummary(e.id, OrElse(e.title, p.title), OrElse(e.name, p.name), OrElse(e.kind, p.kind), status,
        OrElse(e.input, p.input), p.startedAt, at,
        if Terminal(status) then OrElse(p.completedAt, Some(at)) else None)
  }

  function TextOf(op: Op): string {
    if op.Observe? && op.event.Message? && op.event.channel.Assistant? && op.event.text.Some? then op.event.text.value
    else ""
  }

  function AddText(s: State, text: string): State {
    if text == "" then s
    else if s.open.Some? && s.open.value < |s.responses| then
      s.(responses := s.responses[s.open.value := s.responses[s.open.value] + text], candidate := s.open)
    else
      s.(responses := s.responses + [text], open := Some(|s.responses|), candidate := Some(|s.responses|))
  }

  function AddTool(s: State, at: Time, e: Event): State
    requires e.Tool?
  {
    var previous := if e.id in s.tools then Some(s.tools[e.id]) else None;
    s.(open := None,
       candidate := if e.isCall then None else s.candidate,
       order := if e.id in s.tools then s.order else s.order + [e.id],
       tools := s.tools[e.id := Merged(previous, at, e)])
  }

  function Step(s: State, op: Op): State {
    match op
    case Snapshot(usage) => if usage.Some? then s.(tokens := Some((PromptResponse, usage.value))) else s
    case Observe(at, e) =>
      var c := s.(count := s.count + 1);
      match e
      case Message(channel, _) => if channel.Thought? then c.(open := None) else AddText(c, TextOf(op))
      case Tool(_, _, _, _, _, _, _) => AddTool(c, at, e)
      case Plan => c.(open := None)
      case Usage(context, tokens) =>
        c.(context := if context.Some? then Some((context.value, at)) else c.context,
           tokens := if tokens.Some? then Some((UsageUpdate, tokens.value)) else c.tokens)
      case Other => c
  }

  function After(ops: seq<Op>): State {
    if ops == [] then INIT else Step(After(ops[..|ops| - 1]), ops[|ops| - 1])
  }

  function FinalResponse(s: State): string {
    if s.candidate.Some? && s.candidate.value < |s.responses| then s.responses[s.candidate.value] else ""
  }

  // ---------------------------------------------------------------------------
  // What a trace means
  // ---------------------------------------------------------------------------

  /** A thought, a tool event or a plan ends the current response. */
  predicate Interrupts(op: Op) {
    op.Observe? && (op.event.Tool? || op.event.Plan? || (op.event.Message? && op.event.channel.Thought?))
  }

  predicate IsCall(op: Op) {
    op.Observe? && op.event.Tool? && op.event.isCall
  }

  /** All assistant text of a trace, in order. */
  function Text(ops: seq<Op>): string {
    if ops == [] then "" else Text(ops[..|ops| - 1]) + TextOf(ops[|ops| - 1])
  }

  /** The index after the last interruption. */
  function LastBreak(ops: seq<Op>): (i: nat)
    ensures i <= |ops|
    ensures i > 0 ==> Interrupts(ops[i - 1])
    ensures forall k | i <= k < |ops| :: !Interrupts(ops[k])
  {
    if ops == [] then 0 else if Interrupts(ops[|ops| - 1]) then |ops| else LastBreak(ops[..|ops| - 1])
  }

  /** The text since the last interruption. */
  function OpenText(ops: seq<Op>): string {
    Text(ops[LastBreak(ops)..])
  }

  /** The texts between interruptions, empty ones included. */
  function Blocks(ops: seq<Op>): (blocks: seq<string>)
    ensures blocks != [] && blocks[|blocks| - 1] == OpenText(ops)
    decreases |ops|
  {
    (if LastBreak(ops) == 0 then [] else Blocks(ops[..LastBreak(ops) - 1])) + [OpenText(ops)]
  }

  function NonEmpty(blocks: seq<string>): seq<string> {
    if blocks == [] then []
    else
      var last := blocks[|blocks| - 1];
      NonEmpty(blocks[..|blocks| - 1]) + (if last == "" then [] else [last])
  }

  function Concat(texts: seq<string>): string {
    if texts == [] then "" else Concat(texts[..|texts| - 1]) + texts[|texts| - 1]
  }

  function Final(ops: seq<Op>): string {
    if ops == [] then ""
    else
      var last := ops[|ops| - 1];
      if IsCall(last) then ""
      else if TextOf(last) != "" then OpenText(ops)
      else Final(ops[..|ops| - 1])
  }

  /** The events that name one tool. */
  predicate Names(op: Op, id: string) {
    op.Observe? && op.event.Tool? && op.event.id == id
  }

  function ToolEvents(ops: seq<Op>, id: string): (events: seq<Op>)
    ensures forall i | 0 <= i < |events| :: Names(events[i], id)
    ensures events != [] <==> exists i | 0 <= i < |ops| :: Names(ops[i], id)
  {
    if ops == [] then []
    else
      var last := ops[|ops| - 1];
      var earlier := ToolEvents(ops[..|ops| - 1], id);
      assert forall i | 0 <= i < |ops| - 1 :: ops[i] == ops[..|ops| - 1][i];
      if Names(last, id) then earlier + [last] else earlier
  }

  datatype Field = TitleField | NameField | KindField | StatusField | InputField

  function Get(op: Op, field: Field): Option<string> {
    if !(op.Observe? && op.event.Tool?) then None
    else match field
      case TitleField => op.event.title
      case NameField => op.event.name
      case KindField => op.event.kind
      case StatusField => op.event.status
      case InputField => op.event.input
  }

  /** The last value a field was given. */
  function Latest(events: seq<Op>, field: Field): Option<string> {
    if events == [] then None else OrElse(Get(events[|events| - 1], field), Latest(events[..|events| - 1], field))
  }

  function When(op: Op): Time {
    if op.Observe? then op.at else 0
  }

  /** When the tool entered the terminal status it is in now, if it is in one. */
  function CompletedSince(events: seq<Op>): Option<Time> {
    if events == [] || !Terminal(Latest(events, StatusField)) then None
    else OrElse(CompletedSince(events[..|events| - 1]), Some(When(events[|events| - 1])))
  }

  function Summary(id: string, events: seq<Op>): ToolSummary
    requires events != [] && forall i | 0 <= i < |events| :: Names(events[i], id)
  {
    ToolSummary(id, Latest(events, TitleField), Latest(events, NameField), Latest(events, KindField), Latest(events, StatusField),
      Latest(events, InputField), When(events[0]), When(events[|events| - 1]), CompletedSince(events))
  }

  /** The first event that names a tool. */
  predicate FirstAt(ops: seq<Op>, id: string, i: nat) {
    i < |ops| && Names(ops[i], id) && forall k | 0 <= k < i :: !Names(ops[k], id)
  }

  // ---------------------------------------------------------------------------
  // Responses
  // ---------------------------------------------------------------------------

  lemma InterruptSnoc(ops: seq<Op>, op: Op)
    requires Interrupts(op)
    ensures OpenText(ops + [op]) == "" && Blocks(ops + [op]) == Blocks(ops) + [""]
  {
    var t := ops + [op];
    assert t[..|t| - 1] == ops && t[|t|..] == [];
  }

  lemma UnbrokenSnoc(ops: seq<Op>, op: Op)
    requires !Interrupts(op)
    ensures LastBreak(ops + [op]) == LastBreak(ops)
    ensures OpenText(ops + [op]) == OpenText(ops) + TextOf(op)
  {
    var t, i := ops + [op], LastBreak(ops);
    assert t[..|t| - 1] == ops;
    assert t[i..] == ops[i..] + [op];
    assert t[i..][..|t[i..]| - 1] == ops[i..];
  }

  /** All texts between interruptions but the last one. */
  function ClosedBlocks(ops: seq<Op>): seq<string> {
    if LastBreak(ops) == 0 then [] else Blocks(ops[..LastBreak(ops) - 1])
  }

  lemma ClosedSnoc(ops: seq<Op>, op: Op)
    requires !Interrupts(op)
    ensures ClosedBlocks(ops + [op]) == ClosedBlocks(ops)
  {
    UnbrokenSnoc(ops, op);
    var i := LastBreak(ops);
    if i > 0 {
      assert (ops + [op])[..i - 1] == ops[..i - 1];
    }
  }

  /** The variables of the source between two operations. */
  predicate Holds(s: State, closed: seq<string>, open: string, final: string) {
    && s.responses == (if open == "" then closed else closed + [open])
    && s.open == (if open == "" then None else Some(|closed|))
    && (s.candidate.Some? ==> s.candidate.value < |s.responses|)
    && FinalResponse(s) == final
  }

  predicate ResponsesHold(ops: seq<Op>, s: State) {
    Holds(s, NonEmpty(ClosedBlocks(ops)), OpenText(ops), Final(ops))
  }

  lemma ResponsesSnoc(ops: seq<Op>, op: Op, s: State)
    requires ResponsesHold(ops, s)
    ensures ResponsesHold(ops + [op], Step(s, op))
  {
    if Interrupts(op) {
      InterruptHolds(ops, op, s);
    } else if TextOf(op) == "" {
      QuietHolds(ops, op, s);
    } else {
      TextHolds(ops, op, s);
    }
  }

  lemma InterruptHolds(ops: seq<Op>, op: Op, s: State)
    requires ResponsesHold(ops, s) && Interrupts(op)
    ensures ResponsesHold(ops + [op], Step(s, op))
  {
    InterruptSnoc(ops, op);
    ClosedAfterInterrupt(ops, op);
    InterruptedHolds(s, op, NonEmpty(ClosedBlocks(ops)), OpenText(ops), Final(ops));
  }

  /** The open response is closed. */
  lemma InterruptedHolds(s: State, op: Op, closed: seq<string>, open: string, final: string)
    requires Holds(s, closed, open, final) && Interrupts(op)
    ensures Holds(Step(s, op), closed + (if open == "" then [] else [open]), "", if IsCall(op) then "" else final)
  {
    InterruptStep(op, s);
  }

  lemma ClosedAfterInterrupt(ops: seq<Op>, op: Op)
    requires Interrupts(op)
    ensures NonEmpty(ClosedBlocks(ops + [op]))
         == NonEmpty(ClosedBlocks(ops)) + (if OpenText(ops) == "" then [] else [OpenText(ops)])
    ensures Final(ops + [op]) == if IsCall(op) then "" else Final(ops)
  {
    var t := ops + [op];
    assert t[..|t| - 1] == ops;
    assert ClosedBlocks(t) == Blocks(ops) == ClosedBlocks(ops) + [OpenText(ops)];
    assert (ClosedBlocks(ops) + [OpenText(ops)])[..|ClosedBlocks(ops)|] == ClosedBlocks(ops);
  }

  lemma InterruptStep(op: Op, s: State)
    requires Interrupts(op)
    ensures var n := Step(s, op);
            && n.responses == s.responses && n.open.None? && TextOf(op) == ""
            && n.candidate == if IsCall(op) then None else s.candidate
  {
  }

  lemma QuietHolds(ops: seq<Op>, op: Op, s: State)
    requires ResponsesHold(ops, s) && !Interrupts(op) && TextOf(op) == ""
    ensures ResponsesHold(ops + [op], Step(s, op))
  {
    UnbrokenSnoc(ops, op);
    ClosedSnoc(ops, op);
    assert OpenText(ops) + "" == OpenText(ops);
    QuietStep(op, s);
  }

  lemma QuietStep(op: Op, s: State)
    requires !Interrupts(op) && TextOf(op) == ""
    ensures var n := Step(s, op); n.responses == s.responses && n.open == s.open && n.candidate == s.candidate
  {
  }

  lemma TextHolds(ops: seq<Op>, op: Op, s: State)
    requires ResponsesHold(ops, s) && !Interrupts(op) && TextOf(op) != ""
    ensures ResponsesHold(ops + [op], Step(s, op))
  {
    UnbrokenSnoc(ops, op);
    ClosedSnoc(ops, op);
    TextStep(op, s, NonEmpty(ClosedBlocks(ops)), OpenText(ops));
    var n, open := Step(s, op), OpenText(ops + [op]);
    assert open != "" && n.responses[n.candidate.value] == open;
  }

  /** What a piece of text does to the open response. */
  lemma TextStep(op: Op, s: State, closed: seq<string>, open: string)
    requires !Interrupts(op) && TextOf(op) != ""
    requires s.responses == if open == "" then closed else closed + [open]
    requires s.open == if open == "" then None else Some(|closed|)
    ensures var n := Step(s, op);
            && n.responses == closed + [open + TextOf(op)]
            && n.open == Some(|closed|) && n.candidate == n.open
  {
    var text := TextOf(op);
    if open == "" {
      assert open + text == text;
    } else {
      assert s.responses[|closed| := s.responses[|closed|] + text] == closed + [open + text];
    }
  }

  lemma {:induction false} ResponsesAlways(ops: seq<Op>)
    ensures ResponsesHold(ops, After(ops))
    decreases |ops|
  {
    if ops == [] {
    } else {
      var earlier, op := ops[..|ops| - 1], ops[|ops| - 1];
      assert ops == earlier + [op];
      ResponsesAlways(earlier);
      ResponsesGrow(earlier, op);
    }
  }

  lemma ResponsesGrow(ops: seq<Op>, op: Op)
    requires ResponsesHold(ops, After(ops))
    ensures ResponsesHold(ops + [op], After(ops + [op]))
  {
    ResponsesSnoc(ops, op, After(ops));
  }

  lemma FinalResponseMeans(ops: seq<Op>)
    ensures FinalResponse(After(ops)) == Final(ops)
  {
    ResponsesAlways(ops);
  }

  lemma OpenInRange(ops: seq<Op>)
    ensures var s := After(ops); s.open.Some? ==> s.open.value < |s.responses|
  {
    ResponsesAlways(ops);
  }

  lemma {:induction false} TextConcat(x: seq<Op>, y: seq<Op>)
    ensures Text(x + y) == Text(x) + Text(y)
    decreases |y|
  {
    if y == [] {
      assert x + y == x;
    } else {
      var n := |y| - 1;
      assert (x + y)[..|x + y| - 1] == x + y[..n];
      TextConcat(x, y[..n]);
    }
  }

  lemma {:induction false} NonEmptyConcat(blocks: seq<string>)
    ensures Concat(NonEmpty(blocks)) == Concat(blocks)
    decreases |blocks|
  {
    if blocks != [] {
      var n := |blocks| - 1;
      NonEmptyConcat(blocks[..n]);
      if blocks[n] == "" {
        assert NonEmpty(blocks) == NonEmpty(blocks[..n]);
        assert Concat(blocks[..n]) + "" == Concat(blocks[..n]);
      }
    }
  }

  lemma {:induction false} BlocksConcat(ops: seq<Op>)
    ensures Concat(Blocks(ops)) == Text(ops)
    decreases |ops|
  {
    var i := LastBreak(ops);
    SplitText(ops, i);
    if i == 0 {
      assert [] + [OpenText(ops)] == Blocks(ops);
    } else {
      BlocksConcat(ops[..i - 1]);
    }
  }

  /** An interruption carries no text itself. */
  lemma SilentLast(ops: seq<Op>)
    requires ops != [] && Interrupts(ops[|ops| - 1])
    ensures Text(ops) == Text(ops[..|ops| - 1])
  {
    assert TextOf(ops[|ops| - 1]) == "";
  }

  lemma SplitAfter(head: seq<Op>, tail: seq<Op>)
    requires head != [] && Interrupts(head[|head| - 1])
    ensures Text(head + tail) == Text(head[..|head| - 1]) + Text(tail)
  {
    SilentLast(head);
    TextConcat(head, tail);
  }

  lemma SplitText(ops: seq<Op>, i: nat)
    requires i <= |ops| && (i > 0 ==> Interrupts(ops[i - 1]))
    ensures Text(ops) == (if i == 0 then "" else Text(ops[..i - 1])) + Text(ops[i..])
  {
    if i == 0 {
      assert ops[0..] == ops && "" + Text(ops) == Text(ops);
    } else {
      var head := ops[..i];
      assert head + ops[i..] == ops && head[..|head| - 1] == ops[..i - 1];
      SplitAfter(head, ops[i..]);
    }
  }

  /**
   * The responses are the texts between interruptions, without the empty ones;
   * joined together they are all the assistant text, in order.
   */
  lemma ResponsesAreSegments(ops: seq<Op>)
    ensures After(ops).responses == NonEmpty(Blocks(ops))
    ensures "" !in After(ops).responses
    ensures Concat(After(ops).responses) == Text(ops)
  {
    ResponsesAlways(ops);
    NonEmptyConcat(Blocks(ops));
    BlocksConcat(ops);
    NoEmptyLeft(Blocks(ops));
  }

  lemma {:induction false} NoEmptyLeft(blocks: seq<string>)
    ensures "" !in NonEmpty(blocks)
    decreases |blocks|
  {
    if blocks != [] {
      NoEmptyLeft(blocks[..|blocks| - 1]);
    }
  }

  /** `last` is the last operation that carries assistant text. */
  predicate LastTextAt(ops: seq<Op>, last: nat) {
    last < |ops| && TextOf(ops[last]) != "" && forall k | last < k < |ops| :: TextOf(ops[k]) == ""
  }

  /** The unbroken stretch of text that ends at `last`. */
  function SegmentAt(ops: seq<Op>, last: nat): string
    requires last < |ops|
  {
    OpenText(ops[..last + 1])
  }

  /**
   * The final response is the maximal uninterrupted segment that ends with the last text,
   * unless a tool call follows that text; then, and without any text, it is empty.
   */
  lemma FinalResponseIsLastSegment(ops: seq<Op>, last: nat)
    requires LastTextAt(ops, last)
    ensures SegmentAt(ops, last) != ""
    ensures FinalResponse(After(ops)) == if CallAfter(ops, last) then "" else SegmentAt(ops, last)
  {
    ResponsesAlways(ops);
    FinalOf(ops, last);
  }

  predicate CallAfter(ops: seq<Op>, last: nat) {
    exists k | last < k < |ops| :: IsCall(ops[k])
  }

  lemma {:induction false} FinalOf(ops: seq<Op>, last: nat)
    requires LastTextAt(ops, last)
    ensures SegmentAt(ops, last) != ""
    ensures Final(ops) == if CallAfter(ops, last) then "" else SegmentAt(ops, last)
    decreases |ops|
  {
    var earlier, op := ops[..|ops| - 1], ops[|ops| - 1];
    assert ops == earlier + [op];
    if last == |earlier| {
      assert ops[..last + 1] == ops;
      UnbrokenSnoc(earlier, op);
    } else {
      LastTextEarlier(earlier, op, last);
      FinalOf(earlier, last);
    }
  }

  lemma LastTextEarlier(ops: seq<Op>, op: Op, last: nat)
    requires last < |ops| && LastTextAt(ops + [op], last)
    ensures LastTextAt(ops, last) && TextOf(op) == ""
    ensures SegmentAt(ops + [op], last) == SegmentAt(ops, last)
  {
    var t := ops + [op];
    assert forall k | 0 <= k < |ops| :: t[k] == ops[k];
    assert t[|ops|] == op;
    assert t[..last + 1] == ops[..last + 1];
  }

  lemma {:induction false} NoTextNoFinal(ops: seq<Op>)
    requires forall k | 0 <= k < |ops| :: TextOf(ops[k]) == ""
    ensures FinalResponse(After(ops)) == "" && After(ops).responses == []
    decreases |ops|
  {
    if ops != [] {
      NoTextNoFinal(ops[..|ops| - 1]);
    }
  }

  // ---------------------------------------------------------------------------
  // Tools
  // ---------------------------------------------------------------------------

  ghost predicate Summarizes(summary: ToolSummary, ops: seq<Op>, id: string) {
    ToolEvents(ops, id) != [] && summary == Summary(id, ToolEvents(ops, id))
  }

  lemma SummarySnoc(id: string, events: seq<Op>, op: Op)
    requires forall i | 0 <= i < |events| :: Names(events[i], id)
    requires Names(op, id)
    ensures forall i | 0 <= i <= |events| :: Names((events + [op])[i], id)
    ensures Summary(id, events + [op])
         == Merged(if events == [] then None else Some(Summary(id, events)), op.at, op.event)
  {
    var all := events + [op];
    LatestSnoc(events, op, TitleField);
    LatestSnoc(events, op, NameField);
    LatestSnoc(events, op, KindField);
    LatestSnoc(events, op, StatusField);
    LatestSnoc(events, op, InputField);
    assert all[..|all| - 1] == events;
    CompletedOnlyIfTerminal(events);
  }

  lemma LatestSnoc(events: seq<Op>, op: Op, field: Field)
    ensures Latest(events + [op], field) == OrElse(Get(op, field), Latest(events, field))
  {
    assert (events + [op])[..|events|] == events;
  }

  lemma CompletedOnlyIfTerminal(events: seq<Op>)
    ensures CompletedSince(events).Some? <==> Terminal(Latest(events, StatusField))
    ensures events == [] ==> CompletedSince(events).None? && Latest(events, StatusField).None?
  {
  }

  ghost predicate ToolHolds(ops: seq<Op>, s: State, id: string) {
    var events := ToolEvents(ops, id);
    && (id in s.tools <==> events != [])
    && (id in s.tools ==> s.tools[id] == Summary(id, events))
  }

  lemma ToolEventsSnoc(ops: seq<Op>, op: Op, id: string)
    ensures ToolEvents(ops + [op], id) == ToolEvents(ops, id) + (if Names(op, id) then [op] else [])
  {
    assert (ops + [op])[..|ops|] == ops;
  }

  lemma ToolSnoc(ops: seq<Op>, op: Op, s: State, id: string)
    requires ToolHolds(ops, s, id)
    ensures ToolHolds(ops + [op], Step(s, op), id)
  {
    ToolEventsSnoc(ops, op, id);
    if Names(op, id) {
      SummarySnoc(id, ToolEvents(ops, id), op);
    }
  }

  /** Each tool of the snapshot is the summary of the events that name it, and no other tool is there. */
  lemma {:induction false} ToolsAreSummaries(ops: seq<Op>, id: string)
    ensures id in After(ops).tools <==> exists i | 0 <= i < |ops| :: Names(ops[i], id)
    ensures id in After(ops).tools ==> After(ops).tools[id] == Summary(id, ToolEvents(ops, id))
    decreases |ops|
  {
    if ops != [] {
      var n := |ops| - 1;
      ToolsAreSummaries(ops[..n], id);
      assert ToolHolds(ops[..n], After(ops[..n]), id);
      ToolSnoc(ops[..n], ops[n], After(ops[..n]), id);
      assert ops[..n] + [ops[n]] == ops;
    }
  }

  /** From event `i` on every status has been terminal, and before it none was. */
  predicate CompletedAt(events: seq<Op>, i: nat) {
    && i < |events|
    && (forall k | i < k <= |events| :: Terminal(Latest(events[..k], StatusField)))
    && !Terminal(Latest(events[..i], StatusField))
  }

  /** `completedAt` is the time of the event since which every status has been terminal. */
  lemma {:induction false} CompletedMeaning(events: seq<Op>) returns (i: nat)
    requires events != [] && Terminal(Latest(events, StatusField))
    ensures CompletedAt(events, i) && CompletedSince(events) == Some(When(events[i]))
    decreases |events|
  {
    var n := |events| - 1;
    var earlier := events[..n];
    assert events[..|events|] == events;
    assert forall k | 0 <= k <= n :: earlier[..k] == events[..k];
    CompletedOnlyIfTerminal(earlier);
    if Terminal(Latest(earlier, StatusField)) {
      i := CompletedMeaning(earlier);
    } else {
      i := n;
    }
  }

  ghost predicate Appears(ops: seq<Op>, id: string) {
    exists k :: FirstAt(ops, id, k)
  }

  ghost predicate OrderHolds(ops: seq<Op>, s: State) {
    && (forall id :: id in s.order <==> id in s.tools)
    && (forall i | 0 <= i < |s.order| :: Appears(ops, s.order[i]))
    && (forall i, j, x, y | 0 <= i < j < |s.order| && FirstAt(ops, s.order[i], x) && FirstAt(ops, s.order[j], y) :: x < y)
  }

  lemma FirstSnoc(ops: seq<Op>, op: Op, id: string, i: nat)
    ensures i < |ops| ==> (FirstAt(ops + [op], id, i) <==> FirstAt(ops, id, i))
  {
    assert forall k | 0 <= k < |ops| :: (ops + [op])[k] == ops[k];
  }

  lemma OrderSnoc(ops: seq<Op>, op: Op, s: State)
    requires OrderHolds(ops, s) && forall id :: ToolHolds(ops, s, id)
    ensures OrderHolds(ops + [op], Step(s, op))
  {
    var t, n := ops + [op], Step(s, op);
    forall id, i: nat | i < |ops|
      ensures FirstAt(t, id, i) <==> FirstAt(ops, id, i)
    {
      FirstSnoc(ops, op, id, i);
    }
    if n.order != s.order {
      var id := op.event.id;
      assert ToolHolds(ops, s, id);
      assert FirstAt(t, id, |ops|);
    }
    forall i | 0 <= i < |n.order|
      ensures Appears(t, n.order[i])
    {
      if i < |s.order| {
        assert Appears(ops, s.order[i]);
        var k :| FirstAt(ops, s.order[i], k);
        assert FirstAt(t, n.order[i], k);
      } else {
        assert FirstAt(t, n.order[i], |ops|);
      }
    }
    forall i, j, x, y | 0 <= i < j < |n.order| && FirstAt(t, n.order[i], x) && FirstAt(t, n.order[j], y)
      ensures x < y
    {
      assert Appears(ops, s.order[i]);
      var k :| FirstAt(ops, s.order[i], k);
      assert FirstAt(t, n.order[i], k) && x == k;
      if j < |s.order| {
        assert Appears(ops, s.order[j]);
        var l :| FirstAt(ops, s.order[j], l);
        assert FirstAt(t, n.order[j], l) && y == l;
      }
    }
  }

  /** Tools are listed once each, in the order in which they first appear. */
  lemma {:induction false} ToolsByFirstAppearance(ops: seq<Op>)
    ensures OrderHolds(ops, After(ops))
    ensures var order := After(ops).order; forall i, j | 0 <= i < j < |order| :: order[i] != order[j]
    decreases |ops|
  {
    if ops != [] {
      var n := |ops| - 1;
      ToolsByFirstAppearance(ops[..n]);
      forall id
        ensures ToolHolds(ops[..n], After(ops[..n]), id)
      {
        ToolsAreSummaries(ops[..n], id);
      }
      OrderSnoc(ops[..n], ops[n], After(ops[..n]));
      assert ops[..n] + [ops[n]] == ops;
    }
    var order := After(ops).order;
    forall i, j | 0 <= i < j < |order|
      ensures order[i] != order[j]
    {
      assert Appears(ops, order[i]) && Appears(ops, order[j]);
      var k :| FirstAt(ops, order[i], k);
      var l :| FirstAt(ops, order[j], l);
    }
  }

  // ---------------------------------------------------------------------------
  // Counters and usage
  // ---------------------------------------------------------------------------

  predicate SetsTokens(op: Op) {
    match op
    case Snapshot(usage) => usage.Some?
    case Observe(_, e) => e.Usage? && e.tokens.Some?
  }

  function ReportedTokens(op: Op): (Source, Tokens)
    requires SetsTokens(op)
  {
    if op.Snapshot? then (PromptResponse, op.usage.value) else (UsageUpdate, op.event.tokens.value)
  }

  /** The token usage is the one reported last, by an update or by a prompt response. */
  lemma {:induction false} TokensAreLatest(ops: seq<Op>, last: nat)
    requires last < |ops| && SetsTokens(ops[last]) && forall k | last < k < |ops| :: !SetsTokens(ops[k])
    ensures After(ops).tokens == Some(ReportedTokens(ops[last]))
    decreases |ops|
  {
    var n := |ops| - 1;
    if last < n {
      TokensAreLatest(ops[..n], last);
    }
  }

  predicate SetsContext(op: Op) {
    op.Observe? && op.event.Usage? && op.event.context.Some?
  }

  /** The context usage is the last one reported, with the time of that report. */
  lemma {:induction false} ContextIsLatest(ops: seq<Op>, last: nat)
    requires last < |ops| && SetsContext(ops[last]) && forall k | last < k < |ops| :: !SetsContext(ops[k])
    ensures After(ops).context == Some((ops[last].event.context.value, ops[last].at))
    decreases |ops|
  {
    var n := |ops| - 1;
    if last < n {
      ContextIsLatest(ops[..n], last);
    }
  }

  function Observed(ops: seq<Op>): set<nat> {
    set i | 0 <= i < |ops| && ops[i].Observe?
  }

  lemma ObservedSnoc(ops: seq<Op>, op: Op)
    ensures |Observed(ops + [op])| == |Observed(ops)| + (if op.Observe? then 1 else 0)
  {
    var t := ops + [op];
    assert forall i | 0 <= i < |ops| :: t[i] == ops[i];
    assert Observed(t) == if op.Observe? then Observed(ops) + {|ops|} else Observed(ops);
  }

  /** Every observed event is counted, and nothing else is. */
  lemma {:induction false} CountsEveryEvent(ops: seq<Op>)
    ensures After(ops).count == |Observed(ops)|
    decreases |ops|
  {
    if ops != [] {
      var earlier, op := ops[..|ops| - 1], ops[|ops| - 1];
      CountsEveryEvent(earlier);
      ObservedSnoc(earlier, op);
      assert ops == earlier + [op];
    }
  }

  lemma {:induction false} AllObserved(ops: seq<Op>)
    requires forall i | 0 <= i < |ops| :: ops[i].Observe?
    ensures |Observed(ops)| == |ops|
    decreases |ops|
  {
    if ops != [] {
      var earlier, op := ops[..|ops| - 1], ops[|ops| - 1];
      AllObserved(earlier);
      ObservedSnoc(earlier, op);
      assert ops == earlier + [op];
    }
  }

  // ---------------------------------------------------------------------------
  // The reducer
  // ---------------------------------------------------------------------------

  class Reducer {
    var responses: seq<string>
    var open: Option<nat>
    var candidate: Option<nat>
    var order: seq<string>
    var tools: map<string, ToolSummary>
    var context: Option<(Context, Time)>
    var tokens: Option<(Source, Tokens)>
    var count: nat
    ghost var log: seq<Op>

    constructor ()
      ensures Valid() && log == []
    {
      responses, open, candidate, order, tools := [], None, None, [], map[];
      context, tokens, count, log := None, None, 0, [];
    }

    ghost function St(): State
      reads this
    {
      State(responses, open, candidate, order, tools, context, tokens, count)
    }

    ghost predicate Valid()
      reads this
    {
      St() == After(log)
    }

    method AppendText(text: string)
      requires open.Some? ==> open.value < |responses|
      modifies this
      ensures St() == AddText(old(St()), text) && log == old(log)
    {
      if text == "" {
        return;
      }
      if open.None? {
        responses := responses + [text];
        open := Some(|responses| - 1);
      } else {
        responses := responses[open.value := responses[open.value] + text];
      }
      candidate := open;
    }

    method MergeTool(at: Time, event: Event)
      requires event.Tool?
      modifies this
      ensures St() == AddTool(old(St()), at, event) && log == old(log)
    {
      open := None;
      if event.isCall {
        candidate := None;
      }
      var previous := None;
      if event.id in tools {
        previous := Some(tools[event.id]);
      } else {
        order := order + [event.id];
      }
      tools := tools[event.id := Merged(previous, at, event)];
    }

    method ObserveMessage(channel: Channel, text: Option<string>)
      requires open.Some? ==> open.value < |responses|
      modifies this
      ensures St() == (if channel.Thought? then old(St()).(open := None)
                       else AddText(old(St()), if text.Some? then text.value else ""))
      ensures log == old(log)
    {
      if channel.Thought? {
        open := None;
      } else if text.Some? {
        AppendText(text.value);
      }
    }

    method ObserveUsage(at: Time, newContext: Option<Context>, newTokens: Option<Tokens>)
      modifies this
      ensures St() == old(St()).(
                context := if newContext.Some? then Some((newContext.value, at)) else old(context),
                tokens := if newTokens.Some? then Some((UsageUpdate, newTokens.value)) else old(tokens))
      ensures log == old(log)
    {
      if newContext.Some? {
        context := Some((newContext.value, at));
      }
      if newTokens.Some? {
        tokens := Some((UsageUpdate, newTokens.value));
      }
    }

    method Dispatch(at: Time, event: Event)
      requires open.Some? ==> open.value < |responses|
      modifies this
      ensures St() == Step(old(St()), Op.Observe(at, event)) && log == old(log)
    {
      count := count + 1;
      match event
      case Message(channel, text) => ObserveMessage(channel, text);
      case Tool(_, _, _, _, _, _, _) => MergeTool(at, event);
      case Plan => open := None;
      case Usage(newContext, newTokens) => ObserveUsage(at, newContext, newTokens);
      case Other =>
    }

    /** `observe` */
    method Observe(at: Time, event: Event)
      requires Valid()
      modifies this
      ensures Valid() && log == old(log) + [Op.Observe(at, event)]
    {
      ghost var op := Op.Observe(at, event);
      OpenInRange(log);
      Dispatch(at, event);
      log := log + [op];
    }

    /** `finalResponse` */
    method CurrentFinalResponse() returns (text: string)
      requires Valid()
      ensures text == Final(log)
    {
      ResponsesAlways(log);
      if candidate.None? {
        return "";
      }
      return responses[candidate.value];
    }

    method ListResponses() returns (texts: seq<string>)
      requires Valid()
      ensures texts == NonEmpty(Blocks(log))
    {
      ResponsesAreSegments(log);
      texts := responses;
    }

    /** The tools of a snapshot, in the order of the map. */
    method ListTools() returns (calls: seq<ToolSummary>)
      requires Valid()
      ensures |calls| == |order|
      ensures forall i | 0 <= i < |calls| :: Summarizes(calls[i], log, order[i])
    {
      ToolsByFirstAppearance(log);
      calls := [];
      for i := 0 to |order|
        invariant |calls| == i
        invariant forall k | 0 <= k < i :: Summarizes(calls[k], log, order[k])
      {
        assert order[i] in order;
        ToolsAreSummaries(log, order[i]);
        calls := calls + [tools[order[i]]];
      }
    }

    /** `snapshot`; a usage reported with the terminal result replaces the one seen so far. */
    method TakeSnapshot(usage: Option<Tokens>)
        returns (texts: seq<string>, events: nat, calls: seq<ToolSummary>, reported: Option<(Source, Tokens)>,
                 usedContext: Option<(Context, Time)>)
      requires Valid()
      modifies this
      ensures Valid() && log == old(log) + [Snapshot(usage)]
      ensures texts == NonEmpty(Blocks(old(log)))
      ensures events == After(old(log)).count && reported == After(log).tokens
      ensures usedContext == After(old(log)).context
      ensures |calls| == |old(order)|
      ensures forall i | 0 <= i < |calls| :: Summarizes(calls[i], old(log), old(order)[i])
    {
      calls := ListTools();
      texts := ListResponses();
      events, usedContext := count, context;
      if usage.Some? {
        tokens := Some((PromptResponse, usage.value));
      }
      log := log + [Snapshot(usage)];
      reported := tokens;
    }
  }
}
