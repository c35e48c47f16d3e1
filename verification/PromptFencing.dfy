/** The prompt fence between the ACP transport and the session's turn.

    The stream reader stamps each session update with the epoch of the prompt in flight and a sequence
    number, the SDK hands the updates on in wire order, a queue carries them to the session, and a turn
    gets past its fence once as many updates as were counted for its prompt have been processed.
    The wire log records prompts written, updates read and responses read, in order. */
module PromptFencing {
  import opened Options

  type Epoch = nat
  type RequestId = nat
  type UpdateId = nat

  const UPDATE := "session/update"
  const PROMPT := "session/prompt"
  const CANCEL := "$/cancel_request"

  /** A JSON-RPC message: a notification has no id, a response has no method. */
  datatype Message = Message(name: Option<string>, id: Option<RequestId>)

  datatype Stamp = Stamp(epoch: Epoch, sequence: nat)

  datatype ActivePrompt = ActivePrompt(epoch: Epoch, requestId: RequestId, updateCount: nat)

  /** The variables of `makePromptFence`. */
  datatype Fence = Fence(
    nextEpoch: Epoch,
    pending: Option<Epoch>,
    active: Option<ActivePrompt>,
    completed: map<Epoch, nat>,
    metadata: seq<Option<Stamp>>)

  predicate IsUpdate(m: Message) {
    m.name == Some(UPDATE) && m.id.None?
  }

  /** `pull`: what reading one message does to the fence. */
  function Read(f: Fence, m: Message): Fence {
    if IsUpdate(m) then
      if f.active.None? then f.(metadata := f.metadata + [None])
      else
        var count := f.active.value.updateCount + 1;
        f.(active := Some(f.active.value.(updateCount := count)),
           metadata := f.metadata + [Some(Stamp(f.active.value.epoch, count))])
    else if m.name.None? && f.active.Some? && m.id == Some(f.active.value.requestId) then
      f.(completed := f.completed[f.active.value.epoch := f.active.value.updateCount], active := None)
    else f
  }

  /** `write`: what writing one message does to the fence. */
  function Write(f: Fence, m: Message): Fence {
    if m.name == Some(PROMPT) && m.id.Some? && f.pending.Some?
    then f.(active := Some(ActivePrompt(f.pending.value, m.id.value, 0)), pending := None) else f
  }

  function Begin(f: Fence): Option<Fence> {
    if f.pending.Some? || f.active.Some? then None
    else Some(f.(nextEpoch := f.nextEpoch + 1, pending := Some(f.nextEpoch + 1)))
  }

  function Abandon(f: Fence, epoch: Epoch): Fence {
    f.(pending := if f.pending == Some(epoch) then None else f.pending,
       active := if f.active.Some? && f.active.value.epoch == epoch then None else f.active,
       completed := f.completed - {epoch})
  }

  function Taken(f: Fence): (Fence, Option<Stamp>) {
    if f.metadata == [] then (f, None) else (f.(metadata := f.metadata[1..]), f.metadata[0])
  }

  class PromptFence {
    var nextEpoch: Epoch
    var pendingEpoch: Option<Epoch>
    var active: Option<ActivePrompt>
    var completed: map<Epoch, nat>
    var updateMetadata: seq<Option<Stamp>>

    function Value(): Fence
      reads this
    {
      Fence(nextEpoch, pendingEpoch, active, completed, updateMetadata)
    }

    constructor ()
      ensures Value() == Fence(0, None, None, map[], [])
    {
      nextEpoch, pendingEpoch, active, completed, updateMetadata := 0, None, None, map[], [];
    }

    method OnRead(m: Message)
      modifies this
      ensures Value() == Read(old(Value()), m)
    {
      if m.name.Some? && m.id.None? && m.name.value == UPDATE {
        if active.None? {
          updateMetadata := updateMetadata + [None];
        } else {
          active := Some(active.value.(updateCount := active.value.updateCount + 1));
          updateMetadata := updateMetadata + [Some(Stamp(active.value.epoch, active.value.updateCount))];
        }
      } else if m.name.None? && active.Some? && m.id == Some(active.value.requestId) {
        completed := completed[active.value.epoch := active.value.updateCount];
        active := None;
      }
    }

    method OnWrite(m: Message)
      modifies this
      ensures Value() == Write(old(Value()), m)
    {
      if m.name.Some? && m.id.Some? && m.name.value == PROMPT && pendingEpoch.Some? {
        active := Some(ActivePrompt(pendingEpoch.value, m.id.value, 0));
        pendingEpoch := None;
      }
    }

    method BeginPrompt() returns (epoch: Option<Epoch>)
      modifies this
      ensures epoch.None? <==> Begin(old(Value())).None?
      ensures epoch.Some? ==> Begin(old(Value())) == Some(Value()) && epoch == pendingEpoch
      ensures epoch.None? ==> Value() == old(Value())
    {
      if pendingEpoch.Some? || active.Some? { return None; }
      nextEpoch := nextEpoch + 1;
      pendingEpoch := Some(nextEpoch);
      return pendingEpoch;
    }

    method FinishPrompt(epoch: Epoch) returns (fence: Option<nat>)
      modifies this
      ensures fence == if epoch in old(completed) then Some(old(completed)[epoch]) else None
      ensures Value() == old(Value()).(completed := old(completed) - {epoch})
    {
      if epoch !in completed {
        assert completed - {epoch} == completed;
        return None;
      }
      fence := Some(completed[epoch]);
      completed := completed - {epoch};
    }

    method AbandonPrompt(epoch: Epoch)
      modifies this
      ensures Value() == Abandon(old(Value()), epoch)
    {
      if pendingEpoch == Some(epoch) { pendingEpoch := None; }
      if active.Some? && active.value.epoch == epoch { active := None; }
      completed := completed - {epoch};
    }

    method TakeUpdate() returns (stamp: Option<Stamp>)
      modifies this
      ensures (Value(), stamp) == Taken(old(Value()))
    {
      if updateMetadata == [] { return None; }
      stamp := updateMetadata[0];
      updateMetadata := updateMetadata[1..];
    }
  }

  // ---------------------------------------------------------------- the session around the fence

  /** Where the turn is.  A prompt is in flight from `Prompted` on; an interrupted one waits until its
      cancellation has been delivered, that is, until more than `seen` cancellations have been. */
  datatype Phase =
    | Preparing | Projecting
    | Prompted(epoch: Epoch, request: RequestId)
    | Interrupted(epoch: Epoch, request: RequestId, seen: nat)
    | Fencing(epoch: Epoch, request: RequestId, fence: nat)
    | Waiting(epoch: Epoch, request: RequestId, fence: nat)
    | Passed(epoch: Epoch, request: RequestId)

  /** An active turn; `handled` are the updates emitted under it, with the epochs of their stamps. */
  datatype Turn = Turn(
    phase: Phase,
    promptEpoch: Option<Epoch>,
    processed: nat,
    settled: bool,
    handled: seq<(UpdateId, Epoch)>)

  datatype Event = Wrote(request: RequestId) | Update(id: UpdateId) | Answered(request: RequestId)

  datatype Queued = Queued(id: UpdateId, stamp: Option<Stamp>)

  /** `outbox` holds messages on their way to the stream; `inbox` the updates read that the SDK has not
      handed on yet; `queue` the ones the session has not handled yet; `log` is the wire. */
  datatype State = State(
    fence: Fence,
    outbox: seq<Message>,
    nextRequest: RequestId,
    cancellations: nat,
    inbox: seq<UpdateId>,
    queue: seq<Queued>,
    turn: Option<Turn>,
    down: bool,
    log: seq<Event>)

  const INIT := State(Fence(0, None, None, map[], []), [], 0, 0, [], [], None, false, [])

  datatype Action =
    | StartTurn | StartProjecting | BeginPrompt | WriteNext | ReadMessage(m: Message, id: UpdateId)
    | HandOn | Consume | Interrupt | Cancelled | Resolve | Reject | AwaitFence | Pass | EndTurn | GoDown

  function PromptMessage(request: RequestId): Message {
    Message(Some(PROMPT), Some(request))
  }

  const CANCEL_MESSAGE := Message(Some(CANCEL), None)

  function WithPhase(s: State, phase: Phase): State
    requires s.turn.Some?
  {
    s.(turn := Some(s.turn.value.(phase := phase)))
  }

  function InFlight(p: Phase): Option<(Epoch, RequestId)> {
    match p
    case Prompted(e, r) => Some((e, r))
    case Interrupted(e, r, _) => Some((e, r))
    case _ => None
  }

  /** The end of a turn, leaving `prompt` behind if it is still open. */
  function Dropped(s: State): State
    requires s.turn.Some?
  {
    var open := InFlight(s.turn.value.phase);
    s.(turn := None, fence := if open.Some? then Abandon(s.fence, open.value.0) else s.fence)
  }

  /** `handleTransportUpdate`; updates are projected and emitted from `Projecting` until the fence is passed. */
  function Handle(t: Turn, u: Queued): Turn {
    if u.stamp.None? then t
    else if t.promptEpoch.Some? && t.promptEpoch != Some(u.stamp.value.epoch) then t
    else
      var projecting := !t.phase.Preparing? && !t.phase.Passed?;
      var processed := if u.stamp.value.sequence > t.processed then u.stamp.value.sequence else t.processed;
      t.(promptEpoch := Some(u.stamp.value.epoch),
         handled := if projecting then t.handled + [(u.id, u.stamp.value.epoch)] else t.handled,
         processed := processed,
         settled := t.settled || (t.phase.Waiting? && processed >= t.phase.fence))
  }

  function WriteOne(s: State): State
    requires s.outbox != []
  {
    var m := s.outbox[0];
    s.(outbox := s.outbox[1..],
       fence := Write(s.fence, m),
       cancellations := if m.name == Some(CANCEL) then s.cancellations + 1 else s.cancellations,
       log := if m.name == Some(PROMPT) && m.id.Some? then s.log + [Wrote(m.id.value)] else s.log)
  }

  /** A response answers a request that has been written, and no request twice. */
  predicate CanRead(s: State, m: Message) {
    m.name.None? && m.id.Some? ==> Wrote(m.id.value) in s.log && Answered(m.id.value) !in s.log
  }

  function ReadOne(s: State, m: Message, id: UpdateId): State {
    s.(fence := Read(s.fence, m),
       inbox := if IsUpdate(m) then s.inbox + [id] else s.inbox,
       log := if IsUpdate(m) then s.log + [Update(id)]
              else if m.name.None? && m.id.Some? then s.log + [Answered(m.id.value)] else s.log)
  }

  /** One step of a turn's own code. */
  function NextTurn(s: State, a: Action, t: Turn): State
    requires s.turn == Some(t)
  {
    match a
    case StartProjecting => if t.phase.Preparing? then WithPhase(s, Projecting) else s
    case BeginPrompt =>
      if !t.phase.Projecting? then s
      else if s.down || Begin(s.fence).None? then s.(turn := None)
      else
        WithPhase(s.(fence := Begin(s.fence).value,
                     outbox := s.outbox + [PromptMessage(s.nextRequest)],
                     nextRequest := s.nextRequest + 1),
                  Prompted(s.fence.nextEpoch + 1, s.nextRequest))
    case Interrupt =>
      if t.phase.Prompted?
      then WithPhase(s.(outbox := s.outbox + [CANCEL_MESSAGE]),
                     Interrupted(t.phase.epoch, t.phase.request, s.cancellations)) else s
    case Cancelled =>
      if t.phase.Interrupted? && (s.cancellations > t.phase.seen || s.down) then Dropped(s) else s
    case Resolve =>
      if !t.phase.Prompted? || Answered(t.phase.request) !in s.log then s
      else if t.phase.epoch !in s.fence.completed then Dropped(s)
      else
        WithPhase(s.(fence := Abandon(s.fence, t.phase.epoch)),
                  Fencing(t.phase.epoch, t.phase.request, s.fence.completed[t.phase.epoch]))
    case Reject => if t.phase.Prompted? && (s.down || Answered(t.phase.request) in s.log) then Dropped(s) else s
    case AwaitFence =>
      if !t.phase.Fencing? then s
      else if t.promptEpoch.Some? && t.promptEpoch != Some(t.phase.epoch) then s.(turn := None)
      else s.(turn := Some(t.(phase := Waiting(t.phase.epoch, t.phase.request, t.phase.fence),
                              promptEpoch := Some(t.phase.epoch),
                              settled := t.settled || t.processed >= t.phase.fence)))
    case Pass => if t.phase.Waiting? && t.settled then WithPhase(s, Passed(t.phase.epoch, t.phase.request)) else s
    case EndTurn => if InFlight(t.phase).None? then s.(turn := None) else s
    case _ => s
  }

  function Next(s: State, a: Action): State {
    match a
    case StartTurn => if s.turn.None? then s.(turn := Some(Turn(Preparing, None, 0, false, []))) else s
    case WriteNext => if s.down || s.outbox == [] then s else WriteOne(s)
    case ReadMessage(m, id) => if s.down || !CanRead(s, m) then s else ReadOne(s, m, id)
    case HandOn =>
      if s.inbox == [] then s
      else
        var (f, stamp) := Taken(s.fence);
        s.(fence := f, inbox := s.inbox[1..], queue := s.queue + [Queued(s.inbox[0], stamp)])
    case Consume =>
      if s.queue == [] then s
      else s.(queue := s.queue[1..], turn := if s.turn.None? then None else Some(Handle(s.turn.value, s.queue[0])))
    case GoDown => s.(down := true)
    case _ => if s.turn.None? then s else NextTurn(s, a, s.turn.value)
  }

  function Exec(s: State, run: seq<Action>): State
    decreases |run|
  {
    if run == [] then s else Exec(Next(s, run[0]), run[1..])
  }

  // ---------------------------------------------------------------- what the wire says

  predicate Open(log: seq<Event>, r: RequestId) {
    Wrote(r) in log && Answered(r) !in log
  }

  /** The updates read between writing the request and reading its response. */
  function Between(log: seq<Event>, r: RequestId): (ids: seq<UpdateId>)
    decreases |log|
  {
    if log == [] then []
    else
      var before := log[..|log| - 1];
      var e := log[|log| - 1];
      if e.Update? && Open(before, r) then Between(before, r) + [e.id] else Between(before, r)
  }

  lemma {:induction false} BetweenUnwritten(log: seq<Event>, r: RequestId)
    requires Wrote(r) !in log
    ensures Between(log, r) == []
    decreases |log|
  {
    if log != [] {
      BetweenUnwritten(log[..|log| - 1], r);
    }
  }

  /** The updates on their way to the session, oldest first. */
  function Flight(s: State): seq<Queued>
    requires |s.inbox| == |s.fence.metadata|
  {
    s.queue + seq(|s.inbox|, i requires 0 <= i < |s.inbox| => Queued(s.inbox[i], s.fence.metadata[i]))
  }

  /** The ones stamped with an epoch. */
  function Of(flight: seq<Queued>, e: Epoch): (ids: seq<UpdateId>)
    decreases |flight|
  {
    if flight == [] then []
    else
      var rest := Of(flight[1..], e);
      if flight[0].stamp.Some? && flight[0].stamp.value.epoch == e then [flight[0].id] + rest else rest
  }

  lemma {:induction false} OfAppend(a: seq<Queued>, b: seq<Queued>, e: Epoch)
    ensures Of(a + b, e) == Of(a, e) + Of(b, e)
    decreases |a|
  {
    if a == [] {
      assert a + b == b;
    } else {
      assert (a + b)[1..] == a[1..] + b;
      OfAppend(a[1..], b, e);
    }
  }

  /** The stamps of an epoch count on from `from`. */
  predicate CountsFrom(flight: seq<Queued>, e: Epoch, from: nat)
    decreases |flight|
  {
    flight == [] ||
    (if flight[0].stamp.Some? && flight[0].stamp.value.epoch == e
     then flight[0].stamp.value.sequence == from + 1 && CountsFrom(flight[1..], e, from + 1)
     else CountsFrom(flight[1..], e, from))
  }

  lemma {:induction false} CountsFromSnoc(flight: seq<Queued>, u: Queued, e: Epoch, from: nat)
    requires CountsFrom(flight, e, from)
    ensures CountsFrom(flight + [u], e, from) <==>
            (u.stamp.Some? && u.stamp.value.epoch == e ==> u.stamp.value.sequence == from + |Of(flight, e)| + 1)
    decreases |flight|
  {
    if flight == [] {
      assert flight + [u] == [u] && [u][1..] == [];
    } else {
      assert (flight + [u])[1..] == flight[1..] + [u];
      var mine := flight[0].stamp.Some? && flight[0].stamp.value.epoch == e;
      CountsFromSnoc(flight[1..], u, e, if mine then from + 1 else from);
    }
  }

  function Ids(handled: seq<(UpdateId, Epoch)>): seq<UpdateId> {
    seq(|handled|, i requires 0 <= i < |handled| => handled[i].0)
  }

  // ---------------------------------------------------------------- the invariant

  ghost predicate Requests(s: State) {
    forall e | e in s.log ::
      (e.Wrote? ==> e.request < s.nextRequest) && (e.Answered? ==> Wrote(e.request) in s.log)
  }

  predicate Epochs(s: State) {
    && |s.inbox| == |s.fence.metadata|
    && (forall u | u in Flight(s) :: u.stamp.Some? ==> u.stamp.value.epoch <= s.fence.nextEpoch)
    && (s.turn.Some? && s.turn.value.promptEpoch.Some? ==> s.turn.value.promptEpoch.value <= s.fence.nextEpoch)
  }

  /** What is on its way to the stream while a prompt is in flight, once it has been written or not. */
  predicate Outgoing(s: State, p: Phase, written: bool)
    requires p.Prompted? || p.Interrupted?
  {
    s.down ||
    (match p
     case Prompted(e, r) => s.outbox == if written then [] else [PromptMessage(r)]
     case Interrupted(e, r, seen) =>
       || (s.outbox == (if written then [] else [PromptMessage(r)]) + [CANCEL_MESSAGE] && s.cancellations == seen)
       || (s.outbox == [] && written && s.cancellations > seen))
  }

  /** The fence's variables agree with the wire for the prompt in flight. */
  predicate FenceFor(s: State, e: Epoch, r: RequestId) {
    var f := s.fence;
    || (f.pending == Some(e) && f.active.None? && f.completed == map[] && Wrote(r) !in s.log)
    || (f.pending.None? && f.active == Some(ActivePrompt(e, r, |Between(s.log, r)|)) && f.completed == map[]
        && Open(s.log, r))
    || (f.pending.None? && f.active.None? && f.completed == map[e := |Between(s.log, r)|]
        && Wrote(r) in s.log && Answered(r) in s.log)
  }

  predicate FenceIdle(s: State) {
    s.fence.pending.None? && s.fence.active.None? && s.fence.completed == map[] && (s.down || s.outbox == [])
  }

  predicate Phases(s: State) {
    if s.turn.Some? && InFlight(s.turn.value.phase).Some? then
      var (e, r) := InFlight(s.turn.value.phase).value;
      FenceFor(s, e, r) && r < s.nextRequest && Outgoing(s, s.turn.value.phase, Wrote(r) in s.log)
    else
      FenceIdle(s)
  }

  function PromptOf(p: Phase): Option<(Epoch, RequestId)> {
    match p
    case Prompted(e, r) => Some((e, r))
    case Interrupted(e, r, _) => Some((e, r))
    case Fencing(e, r, _) => Some((e, r))
    case Waiting(e, r, _) => Some((e, r))
    case Passed(e, r) => Some((e, r))
    case _ => None
  }

  /** The turn has handled, in order, a prefix of the updates of its prompt, and the rest is on its way. */
  predicate Split(flight: seq<Queued>, log: seq<Event>, t: Turn, e: Epoch, r: RequestId) {
    && Ids(t.handled) + Of(flight, e) == Between(log, r)
    && t.processed == |t.handled|
    && (forall h | h in t.handled :: h.1 == e)
    && CountsFrom(flight, e, t.processed)
  }

  predicate Progress(s: State)
    requires |s.inbox| == |s.fence.metadata|
  {
    s.turn.Some? ==>
      var t := s.turn.value;
      && (t.promptEpoch.None? ==> t.handled == [] && t.processed == 0)
      && (t.settled ==> t.phase.Waiting? || t.phase.Passed?)
      && (PromptOf(t.phase).Some? ==>
            var (e, r) := PromptOf(t.phase).value;
            && e <= s.fence.nextEpoch
            && (t.promptEpoch.None? || t.promptEpoch == Some(e) ==> Split(Flight(s), s.log, t, e, r))
            && (InFlight(t.phase).None? ==> Wrote(r) in s.log && Answered(r) in s.log)
            && (t.phase.Fencing? || t.phase.Waiting? ==> t.phase.fence == |Between(s.log, r)|)
            && (t.phase.Waiting? ==> t.promptEpoch == Some(e) && (t.settled <==> t.processed >= t.phase.fence))
            && (t.phase.Passed? ==> t.promptEpoch == Some(e) && t.processed >= |Between(s.log, r)|))
  }

  ghost predicate Inv(s: State) {
    Requests(s) && Epochs(s) && Phases(s) && Progress(s)
  }

  lemma {:induction false} OfNone(flight: seq<Queued>, e: Epoch)
    requires forall u | u in flight :: u.stamp.Some? ==> u.stamp.value.epoch != e
    ensures Of(flight, e) == [] && forall n: nat :: CountsFrom(flight, e, n)
    decreases |flight|
  {
    if flight != [] {
      assert flight[0] in flight;
      OfNone(flight[1..], e);
    }
  }

  lemma HandOnKeeps(s: State)
    requires Inv(s) && s.inbox != []
    ensures Inv(Next(s, HandOn)) && Flight(Next(s, HandOn)) == Flight(s)
  {
    var t := Next(s, HandOn);
    assert Flight(t) == Flight(s);
  }

  lemma ConsumeKeeps(s: State)
    requires Inv(s) && s.queue != []
    ensures Inv(Next(s, Consume))
  {
    ConsumeFlight(s);
    ConsumeProgress(s);
  }

  lemma ConsumeFlight(s: State)
    requires Inv(s) && s.queue != []
    ensures |s.inbox| == |s.fence.metadata| && Flight(s) != [] && Flight(s)[0] == s.queue[0]
    ensures Flight(Next(s, Consume)) == Flight(s)[1..] && Epochs(Next(s, Consume))
  {
    assert Flight(s)[0] == s.queue[0];
    assert Flight(Next(s, Consume)) == Flight(s)[1..];
  }

  lemma ConsumeProgress(s: State)
    requires Inv(s) && s.queue != []
    ensures |Next(s, Consume).inbox| == |Next(s, Consume).fence.metadata| && Progress(Next(s, Consume))
  {
    ConsumeFlight(s);
    if s.turn.Some? {
      var before, after := s.turn.value, Handle(s.turn.value, s.queue[0]);
      if PromptOf(before.phase).Some? {
        var (e, r) := PromptOf(before.phase).value;
        if after.promptEpoch.None? || after.promptEpoch == Some(e) {
          HandleSplits(Flight(s), s.log, before, e, r);
        }
      }
    }
  }

  lemma HandleSplits(flight: seq<Queued>, log: seq<Event>, t: Turn, e: Epoch, r: RequestId)
    requires flight != [] && Split(flight, log, t, e, r) && (t.promptEpoch.None? || t.promptEpoch == Some(e))
    requires t.phase.Passed? ==> t.processed >= |Between(log, r)|
    requires !t.phase.Preparing?
    ensures var after := Handle(t, flight[0]);
            after.promptEpoch.None? || after.promptEpoch == Some(e) ==> Split(flight[1..], log, after, e, r)
  {
    var u, after := flight[0], Handle(t, flight[0]);
    if u.stamp.Some? && u.stamp.value.epoch == e {
      assert |Between(log, r)| == |t.handled| + |Of(flight, e)| > t.processed;
      assert Ids(after.handled) == Ids(t.handled) + [u.id];
    }
  }

  lemma ReadKeeps(s: State, m: Message, id: UpdateId)
    requires Inv(s) && !s.down && CanRead(s, m)
    ensures Inv(ReadOne(s, m, id))
  {
    var t := ReadOne(s, m, id);
    if IsUpdate(m) {
      UpdateKeeps(s, m, id);
    } else if m.name.None? && m.id.Some? {
      AnswerKeeps(s, m, id);
    } else {
      assert Flight(t) == Flight(s);
    }
  }

  lemma UpdateFlight(s: State, m: Message, id: UpdateId)
    requires |s.inbox| == |s.fence.metadata| && IsUpdate(m)
    ensures |ReadOne(s, m, id).inbox| == |ReadOne(s, m, id).fence.metadata|
    ensures Flight(ReadOne(s, m, id)) == Flight(s) + [Queued(id, Read(s.fence, m).metadata[|s.fence.metadata|])]
  {
  }

  lemma UpdatePhases(s: State, m: Message, id: UpdateId)
    requires Inv(s) && !s.down && IsUpdate(m)
    ensures Phases(ReadOne(s, m, id)) && Requests(ReadOne(s, m, id)) && Epochs(ReadOne(s, m, id))
  {
    var t := ReadOne(s, m, id);
    UpdateFlight(s, m, id);
    assert t.log == s.log + [Update(id)];
    assert forall e: Event | !e.Update? :: e in t.log <==> e in s.log;
  }

  lemma UpdateProgress(s: State, m: Message, id: UpdateId)
    requires Inv(s) && !s.down && IsUpdate(m)
    ensures |ReadOne(s, m, id).inbox| == |ReadOne(s, m, id).fence.metadata| && Progress(ReadOne(s, m, id))
  {
    UpdateFlight(s, m, id);
    var t, stamp := ReadOne(s, m, id), Read(s.fence, m).metadata[|s.fence.metadata|];
    assert t.log == s.log + [Update(id)];
    assert forall e: Event | !e.Update? :: e in t.log <==> e in s.log;
    if s.turn.Some? && PromptOf(s.turn.value.phase).Some? {
      var (e, r) := PromptOf(s.turn.value.phase).value;
      if s.turn.value.promptEpoch.None? || s.turn.value.promptEpoch == Some(e) {
        assert Open(s.log, r) == (stamp.Some? && stamp.value.epoch == e);
        assert Open(s.log, r) ==> stamp.value.sequence == |Between(s.log, r)| + 1;
        UpdateSplits(Flight(s), Queued(id, stamp), s.log, s.turn.value, e, r);
      }
    }
  }

  lemma UpdateKeeps(s: State, m: Message, id: UpdateId)
    requires Inv(s) && !s.down && IsUpdate(m)
    ensures Inv(ReadOne(s, m, id))
  {
    UpdatePhases(s, m, id);
    UpdateProgress(s, m, id);
  }

  lemma UpdateSplits(flight: seq<Queued>, u: Queued, log: seq<Event>, t: Turn, e: Epoch, r: RequestId)
    requires Split(flight, log, t, e, r) && Open(log, r) == (u.stamp.Some? && u.stamp.value.epoch == e)
    requires Open(log, r) ==> u.stamp.value.sequence == |Between(log, r)| + 1
    ensures Split(flight + [u], log + [Update(u.id)], t, e, r)
  {
    OfAppend(flight, [u], e);
    assert [u][1..] == [] && Of([u], e) == if Open(log, r) then [u.id] else [];
    CountsFromSnoc(flight, u, e, t.processed);
  }

  lemma AnswerPhases(s: State, m: Message, id: UpdateId)
    requires Inv(s) && !s.down && CanRead(s, m) && m.name.None? && m.id.Some?
    ensures Phases(ReadOne(s, m, id))
  {
    if s.turn.Some? && InFlight(s.turn.value.phase).Some? {
      var (e, r) := InFlight(s.turn.value.phase).value;
      assert FenceFor(ReadOne(s, m, id), e, r);
    }
  }

  lemma AnswerProgress(s: State, m: Message, id: UpdateId)
    requires Inv(s) && !s.down && CanRead(s, m) && m.name.None? && m.id.Some?
    ensures |ReadOne(s, m, id).inbox| == |ReadOne(s, m, id).fence.metadata| && Progress(ReadOne(s, m, id))
  {
    assert Flight(ReadOne(s, m, id)) == Flight(s);
  }

  lemma AnswerKeeps(s: State, m: Message, id: UpdateId)
    requires Inv(s) && !s.down && CanRead(s, m) && m.name.None? && m.id.Some?
    ensures Inv(ReadOne(s, m, id))
  {
    assert Flight(ReadOne(s, m, id)) == Flight(s);
    AnswerPhases(s, m, id);
    AnswerProgress(s, m, id);
  }

  lemma WriteFlight(s: State)
    requires s.outbox != [] && |s.inbox| == |s.fence.metadata|
    ensures |WriteOne(s).inbox| == |WriteOne(s).fence.metadata| && Flight(WriteOne(s)) == Flight(s)
  {
  }

  /** While a message waits to be written a prompt is in flight, and it is its prompt or its cancellation. */
  lemma WaitingMessage(s: State)
    requires Inv(s) && !s.down && s.outbox != []
    ensures s.turn.Some? && InFlight(s.turn.value.phase).Some?
    ensures var m, (e, r) := s.outbox[0], InFlight(s.turn.value.phase).value;
            || (m == PromptMessage(r) && Wrote(r) !in s.log)
            || (m == CANCEL_MESSAGE && Wrote(r) in s.log)
  {
  }

  lemma WriteKeeps(s: State)
    requires Inv(s) && !s.down && s.outbox != []
    ensures Inv(WriteOne(s))
  {
    WaitingMessage(s);
    if s.outbox[0].name == Some(PROMPT) {
      WritePromptKeeps(s);
    } else {
      WriteCancelKeeps(s);
    }
  }

  lemma WriteCancelKeeps(s: State)
    requires Inv(s) && !s.down && s.outbox != [] && s.outbox[0] == CANCEL_MESSAGE
    ensures Inv(WriteOne(s))
  {
    WriteFlight(s);
    WaitingMessage(s);
    var t := WriteOne(s);
    assert t.log == s.log && t.fence == s.fence;
  }

  lemma WritePromptKeeps(s: State)
    requires Inv(s) && !s.down && s.outbox != [] && s.outbox[0].name == Some(PROMPT)
    ensures Inv(WriteOne(s))
  {
    WriteFlight(s);
    WaitingMessage(s);
    var t, m := WriteOne(s), s.outbox[0];
    var (e, r) := InFlight(s.turn.value.phase).value;
    assert m == PromptMessage(r) && t.log == s.log + [Wrote(r)];
    BetweenUnwritten(s.log, r);
    assert Answered(r) !in s.log;
    assert FenceFor(t, e, r);
    assert Outgoing(t, t.turn.value.phase, true);
  }

  lemma BeginKeeps(s: State)
    requires Inv(s) && s.turn.Some? && s.turn.value.phase.Projecting?
    ensures Inv(NextTurn(s, BeginPrompt, s.turn.value))
  {
    var t := NextTurn(s, BeginPrompt, s.turn.value);
    assert Flight(t) == Flight(s);
    if t.turn.Some? {
      OfNone(Flight(s), t.fence.nextEpoch);
      BetweenUnwritten(s.log, s.nextRequest);
    }
  }

  lemma DroppedKeeps(s: State)
    requires Inv(s) && s.turn.Some?
    requires s.down || s.turn.value.phase.Interrupted? ==> s.down || s.cancellations > s.turn.value.phase.seen
    requires s.turn.value.phase.Prompted? ==> s.down || Answered(s.turn.value.phase.request) in s.log
    ensures Inv(Dropped(s))
  {
    assert Flight(Dropped(s)) == Flight(s);
  }

  lemma ResolveKeeps(s: State)
    requires Inv(s) && s.turn.Some? && s.turn.value.phase.Prompted? && Answered(s.turn.value.phase.request) in s.log
    ensures s.turn.value.phase.epoch in s.fence.completed && Inv(NextTurn(s, Resolve, s.turn.value))
  {
    assert Flight(NextTurn(s, Resolve, s.turn.value)) == Flight(s);
  }

  lemma AwaitKeeps(s: State)
    requires Inv(s) && s.turn.Some? && s.turn.value.phase.Fencing?
    ensures Inv(NextTurn(s, AwaitFence, s.turn.value))
  {
    assert Flight(NextTurn(s, AwaitFence, s.turn.value)) == Flight(s);
  }

  lemma TurnKeeps(s: State, a: Action)
    requires Inv(s) && s.turn.Some?
    ensures Inv(NextTurn(s, a, s.turn.value))
  {
    var phase, t := s.turn.value.phase, NextTurn(s, a, s.turn.value);
    if a.BeginPrompt? && phase.Projecting? {
      BeginKeeps(s);
    } else if a.Resolve? && phase.Prompted? && Answered(phase.request) in s.log {
      ResolveKeeps(s);
    } else if a.AwaitFence? && phase.Fencing? {
      AwaitKeeps(s);
    } else if (a.Cancelled? && phase.Interrupted?) || (a.Reject? && phase.Prompted?) {
      if t != s {
        DroppedKeeps(s);
      }
    } else {
      assert t.fence == s.fence && t.log == s.log && t.inbox == s.inbox && t.queue == s.queue;
      assert Flight(t) == Flight(s);
    }
  }

  lemma InvNext(s: State, a: Action)
    requires Inv(s)
    ensures Inv(Next(s, a))
  {
    match a {
      case WriteNext => if !s.down && s.outbox != [] { WriteKeeps(s); }
      case ReadMessage(m, id) => if !s.down && CanRead(s, m) { ReadKeeps(s, m, id); }
      case HandOn => if s.inbox != [] { HandOnKeeps(s); }
      case Consume => if s.queue != [] { ConsumeKeeps(s); }
      case StartTurn => assert Flight(Next(s, a)) == Flight(s);
      case GoDown => assert Flight(Next(s, a)) == Flight(s);
      case _ => if s.turn.Some? { TurnKeeps(s, a); }
    }
  }

  lemma {:induction false} InvExec(s: State, run: seq<Action>)
    requires Inv(s)
    ensures Inv(Exec(s, run))
    decreases |run|
  {
    if run != [] {
      InvNext(s, run[0]);
      InvExec(Next(s, run[0]), run[1..]);
    }
  }

  lemma InvReachable(run: seq<Action>)
    ensures Inv(Exec(INIT, run))
  {
    assert Flight(INIT) == [];
    InvExec(INIT, run);
  }

  // ---------------------------------------------------------------- main results

  /** A turn that got past its fence has handled exactly the updates read between writing its prompt
      and reading its response, each once and in wire order, and no update of another epoch. */
  lemma FenceCorrect(run: seq<Action>)
    requires var s := Exec(INIT, run); s.turn.Some? && s.turn.value.phase.Passed?
    ensures var s := Exec(INIT, run);
            var t := s.turn.value;
            && Wrote(t.phase.request) in s.log && Answered(t.phase.request) in s.log
            && Ids(t.handled) == Between(s.log, t.phase.request)
            && (forall h | h in t.handled :: h.1 == t.phase.epoch)
  {
    InvReachable(run);
  }

  /** While a turn that no other epoch's update was bound to waits, processed and in-flight updates add
      up to its fence, so that nothing else has to arrive for it to settle. */
  lemma FenceConserved(run: seq<Action>)
    requires var s := Exec(INIT, run); s.turn.Some? && s.turn.value.phase.Waiting?
    ensures var s := Exec(INIT, run);
            var t := s.turn.value;
            && |s.inbox| == |s.fence.metadata|
            && t.processed + |Of(Flight(s), t.phase.epoch)| == t.phase.fence == |Between(s.log, t.phase.request)|
            && (t.settled <==> t.processed >= t.phase.fence)
  {
    InvReachable(run);
  }

  /** Handing on and handling what has been read already takes every waiting turn past its fence. */
  lemma {:induction false} FenceReachable(s: State) returns (run: seq<Action>)
    requires Inv(s) && s.turn.Some? && s.turn.value.phase.Waiting?
    ensures forall a | a in run :: a.HandOn? || a.Consume? || a.Pass?
    ensures var t := Exec(s, run).turn; t.Some? && t.value.phase.Passed?
    decreases 2 * |s.inbox| + |s.queue|
  {
    if s.turn.value.settled {
      run := [Pass];
      assert Exec(Next(s, Pass), [Pass][1..]) == Next(s, Pass);
    } else if s.queue != [] {
      ConsumeKeeps(s);
      var rest := FenceReachable(Next(s, Consume));
      run := [Consume] + rest;
    } else {
      assert Of(Flight(s), s.turn.value.phase.epoch) != [];
      assert |Flight(s)| == |s.inbox|;
      HandOnKeeps(s);
      var rest := FenceReachable(Next(s, HandOn));
      run := [HandOn] + rest;
    }
  }

  lemma FenceNeverUnreachable(run: seq<Action>)
    requires var s := Exec(INIT, run); s.turn.Some? && s.turn.value.phase.Waiting?
    ensures exists more: seq<Action> ::
              && (forall a | a in more :: a.HandOn? || a.Consume? || a.Pass?)
              && var t := Exec(Exec(INIT, run), more).turn; t.Some? && t.value.phase.Passed?
  {
    InvReachable(run);
    var more := FenceReachable(Exec(INIT, run));
  }

  /** `beginPrompt` and `finishPrompt` never throw: no fence is open when a turn is about to prompt, and
      the fence of an answered prompt has been observed. */
  lemma FenceNeverRefused(run: seq<Action>)
    requires Exec(INIT, run).turn.Some?
    ensures var s := Exec(INIT, run);
            var phase := s.turn.value.phase;
            && (phase.Projecting? ==> Begin(s.fence).Some?)
            && (phase.Prompted? && Answered(phase.request) in s.log ==> phase.epoch in s.fence.completed)
  {
    InvReachable(run);
  }

  // ---------------------------------------------------------------- turns at the edges

  lemma DownNext(s: State, a: Action)
    requires s.down
    ensures var n := Next(s, a); n.down && n.log == s.log && n.nextRequest == s.nextRequest
  {
  }

  /** Once the transport is down nothing more is written, read, or asked of the agent. */
  lemma {:induction false} DownIsSilent(s: State, run: seq<Action>)
    requires s.down
    ensures var n := Exec(s, run); n.down && n.log == s.log && n.nextRequest == s.nextRequest
    decreases |run|
  {
    if run != [] {
      DownNext(s, run[0]);
      DownIsSilent(Next(s, run[0]), run[1..]);
    }
  }

  /** A turn that has not come to its prompt yet has projected nothing. */
  predicate Silent(s: State) {
    s.turn.Some? && s.turn.value.phase.Preparing? ==> s.turn.value.handled == []
  }

  lemma SilentNext(s: State, a: Action)
    requires Silent(s)
    ensures Silent(Next(s, a))
  {
  }

  lemma {:induction false} SilentExec(s: State, run: seq<Action>)
    requires Silent(s)
    ensures Silent(Exec(s, run))
    decreases |run|
  {
    if run != [] {
      SilentNext(s, run[0]);
      SilentExec(Next(s, run[0]), run[1..]);
    }
  }

  /** Updates are projected from the time the turn starts projecting until it is past its fence, and at no other. */
  lemma ProjectsInBetween(run: seq<Action>, a: Action)
    requires Exec(INIT, run).turn.Some?
    ensures var t, n := Exec(INIT, run).turn.value, Next(Exec(INIT, run), a).turn;
            && (t.phase.Preparing? ==> t.handled == [])
            && (t.phase.Passed? && n.Some? ==> n.value.phase == t.phase && n.value.handled == t.handled)
  {
    SilentExec(INIT, run);
  }

  /** The fence keeps nothing of the epoch. */
  predicate Forgets(f: Fence, e: Epoch) {
    f.pending != Some(e) && (f.active.Some? ==> f.active.value.epoch != e) && e !in f.completed
  }

  /** A turn that the transport has failed can end in one step, and leaves nothing of its prompt in the fence. */
  lemma TurnCanEnd(s: State) returns (a: Action)
    requires s.down && s.turn.Some?
    ensures Next(s, a).turn.None?
    ensures InFlight(s.turn.value.phase).Some? ==> Forgets(Next(s, a).fence, InFlight(s.turn.value.phase).value.0)
  {
    a := match s.turn.value.phase
         case Prompted(_, _) => Reject
         case Interrupted(_, _, _) => Cancelled
         case _ => EndTurn;
  }
}
