/**
 * The Turn machine of a process capsule (packages/agent-executor/src/process-capsule.ts).
 *
 * Messages from the worker, timers, abort signals, manifest writes, faults, the exit of the
 * process and the one cached cleanup run interleave freely.  Each synchronous stretch of the
 * source is one step here; a manifest write separates the steps before and after it.
 *
 * `turns` is the history of all Turns ever claimed; `active` is the source's `state.active`.
 */
module ProcessCapsule {
  import opened Options
  import TurnReducer

  type Error = nat
  type TurnId = nat

  datatype Phase = Opening | Ready | Running | Cancelling | Cleaning | Closed

  datatype Reason = Operator | Steer | LeaseLost | EventSink | Deadline

  /** An inactivity policy names the number of events after which the silence began. */
  datatype Policy = Asked(reason: Reason) | Inactivity(since: nat)

  /** A silence object; what counts is which object it is. `since` is the number of events before it. */
  datatype Silence = Silence(id: nat, since: nat)

  /** What `Deferred.done` is called with. */
  datatype Settlement = Settlement(
    count: nat,
    finalResponse: string,
    terminal: bool,
    policy: Option<Policy>,
    sinkFailed: bool,
    hard: bool,
    error: Option<Error>)

  /**
   * `trace` is what the Turn's reducer has observed, `seen` are the sequence numbers handed to the
   * sink, `settled` the resolutions of the deferred, `silences` the number of silences begun.
   */
  datatype Turn = Turn(
    id: TurnId,
    sequence: nat,
    trace: seq<TurnReducer.Op>,
    seen: seq<nat>,
    rejected: Option<nat>,
    policy: Option<Policy>,
    silence: Option<Silence>,
    silences: nat,
    terminal: bool,
    pending: Option<Settlement>,
    settled: seq<Settlement>)

  /**
   * Where the one cached cleanup run is.  `Saving` and `Sending` are the manifest write and the cancel
   * message of its own `requestPolicy`, `LastWrite` is the manifest write of its own `settleActive`.
   * What fails in these goes on with the cached cleanup, so the run then waits for itself: `Stuck`.
   */
  datatype Cleanup =
    | NotRun | Announcing | Saving(turn: nat) | Sending(turn: nat) | Stopping | LastWrite(turn: nat) | Persisting
    | Over | Stuck

  /** `timers` are the inactivity timers ever armed, each with the silence it was armed for. */
  datatype State = State(
    phase: Phase,
    active: Option<nat>,
    turns: seq<Turn>,
    timers: set<(nat, Silence)>,
    error: Option<Error>,
    hard: bool,
    cleanup: Cleanup)

  const INIT := State(Opening, None, [], {}, None, false, NotRun)

  datatype Action =
    | Claim(id: TurnId)
    | ReadyMessage(e: Error)
    | EventMessage(id: TurnId, at: TurnReducer.Time, event: TurnReducer.Event, accepted: bool, e: Error)
    | TerminalMessage(id: TurnId, e: Error)
    | FailedMessage(e: Error)
    | ClosedMessage
    | Fault(e: Error)
    | Exit(e: Error)
    | Request(t: nat, reason: Reason)
    | BeginActivity(t: nat)
    | Arm(t: nat)
    | TimerFires(t: nat, silence: Silence)
    | Written(t: nat, ok: bool, e: Error)
    | StartCleanup
    | Announced(reason: Reason)
    | Saved(ok: bool, e: Error)
    | Sent(ok: bool, e: Error)
    | Stopped
    | Persisted(ok: bool)

  // ---------------------------------------------------------------------------
  // The steps
  // ---------------------------------------------------------------------------

  function FirstError(s: State, e: Error): State {
    if s.error.Some? then s else s.(error := Some(e))
  }

  function SetTurn(s: State, t: nat, turn: Turn): State
    requires t < |s.turns|
  {
    s.(turns := s.turns[t := turn])
  }

  predicate IsActive(s: State, t: nat) {
    s.active == Some(t) && t < |s.turns| && !s.turns[t].terminal
  }

  /** `requestPolicy` */
  function RequestPolicy(s: State, t: nat, policy: Policy): State {
    if !IsActive(s, t) || s.turns[t].policy.Some? then s
    else
      SetTurn(s, t, s.turns[t].(policy := Some(policy)))
      .(phase := if s.phase.Cleaning? then Cleaning else Cancelling)
  }

  /** `recordActivity`: a silence object of its own, as long as no policy is recorded. */
  function RecordActivity(turn: Turn): Turn {
    if turn.terminal || turn.policy.Some? then turn
    else turn.(silence := Some(Silence(turn.silences, turn.sequence)), silences := turn.silences + 1)
  }

  /** The first silence of a Turn, and the arming and the firing of a timer in `scheduleActivity`. */
  function ActivityStep(s: State, a: Action): State
    requires a.BeginActivity? || a.Arm? || a.TimerFires?
  {
    if !IsActive(s, a.t) then s
    else
      var turn := s.turns[a.t];
      if a.BeginActivity? then SetTurn(s, a.t, RecordActivity(turn))
      else if turn.silence.None? || turn.policy.Some? then s
      else if a.Arm? then s.(timers := s.timers + {(a.t, turn.silence.value)})
      else if (a.t, a.silence) in s.timers && turn.silence.value.id == a.silence.id then
        RequestPolicy(s, a.t, Inactivity(a.silence.since))
      else s
  }

  /** What the reducer reports, and what has been recorded beside it. */
  function Resolution(s: State, turn: Turn, terminal: bool): Settlement {
    var reduced := TurnReducer.After(turn.trace);
    Settlement(reduced.count, TurnReducer.FinalResponse(reduced), terminal, turn.policy, turn.rejected.Some?,
      s.hard, if terminal then None else s.error)
  }

  /** `settleActive`, with the snapshot its callers take just before it. */
  function SettleActive(s: State, terminal: bool): State {
    if s.active.None? || !IsActive(s, s.active.value) then s
    else
      var t := s.active.value;
      var turn := s.turns[t].(terminal := true);
      var resolution := Resolution(s, turn, terminal);
      if s.phase.Cleaning? || s.phase.Closed? then
        SetTurn(s, t, turn.(settled := turn.settled + [resolution])).(active := None)
      else
        SetTurn(s, t, turn.(pending := Some(resolution))).(active := None, phase := Ready)
  }

  /** `faultCapsule` */
  function FaultCapsule(s: State, e: Error): State {
    SettleActive(FirstError(s, e), false)
  }

  /** The Turn after an event was numbered, reduced and taken as a sign of life. */
  function Observed(turn: Turn, op: TurnReducer.Op): Turn {
    RecordActivity(turn.(sequence := turn.sequence + 1, trace := turn.trace + [op]))
  }

  function Observe(s: State, t: nat, op: TurnReducer.Op, accepted: bool): State
    requires t < |s.turns|
  {
    var turn := s.turns[t];
    var observed := Observed(turn, op);
    if turn.rejected.Some? then SetTurn(s, t, observed)
    else if accepted then SetTurn(s, t, observed.(seen := turn.seen + [turn.sequence]))
    else
      RequestPolicy(
        SetTurn(s, t, observed.(seen := turn.seen + [turn.sequence], rejected := Some(turn.sequence))), t,
        Asked(EventSink))
  }

  /** `onChildMessage` */
  function MessageStep(s: State, a: Action): State
    requires a.ReadyMessage? || a.EventMessage? || a.TerminalMessage? || a.FailedMessage? || a.ClosedMessage?
  {
    match a
    case ReadyMessage(e) => if s.phase.Opening? then s.(phase := Ready) else FaultCapsule(s, e)
    case FailedMessage(e) => SettleActive(FirstError(s, e), false)
    case ClosedMessage => s.(phase := Closed)
    case EventMessage(id, at, event, accepted, e) =>
      if s.active.Some? && IsActive(s, s.active.value) && s.turns[s.active.value].id == id then
        Observe(s, s.active.value, TurnReducer.Observe(at, event), accepted)
      else FaultCapsule(s, e)
    case TerminalMessage(id, e) =>
      if s.active.Some? && IsActive(s, s.active.value) && s.turns[s.active.value].id == id then SettleActive(s, true)
      else FaultCapsule(s, e)
  }

  /** `runCapsuleTurn` up to its claim. */
  function ClaimStep(s: State, id: TurnId): State {
    if s.phase.Ready? && s.active.None? then
      s.(active := Some(|s.turns|),
         phase := Running,
         turns := s.turns + [Turn(id, 0, [], [], None, None, None, 0, false, None, [])])
    else s
  }

  /** The manifest write of `settleActive` ends, and the deferred is resolved either way. */
  function WrittenStep(s: State, t: nat, ok: bool, e: Error): State {
    if t >= |s.turns| || s.turns[t].pending.None? then s
    else
      var turn := s.turns[t];
      var resolution := if ok then turn.pending.value else turn.pending.value.(error := Some(e));
      var n := SetTurn(if ok then s else FirstError(s, e), t,
                       turn.(pending := None, settled := turn.settled + [resolution]));
      if s.cleanup == LastWrite(t) then n.(cleanup := if ok then Persisting else Stuck) else n
  }

  predicate OfCleanup(a: Action) {
    a.StartCleanup? || a.Announced? || a.Saved? || a.Sent? || a.Stopped? || a.Persisted?
  }

  /** The policy that the cleanup asks for; the manifest is written first unless the phase is `cleaning`. */
  function AnnouncedStep(s: State, reason: Reason): State {
    if s.active.None? || !IsActive(s, s.active.value) || s.turns[s.active.value].policy.Some? then
      s.(cleanup := Stopping)
    else
      var t := s.active.value;
      RequestPolicy(s, t, Asked(reason)).(cleanup := if s.phase.Cleaning? then Sending(t) else Saving(t))
  }

  /** `closeCapsuleValue`, from one wait to the next. */
  function CleanupStep(s: State, a: Action): State
    requires OfCleanup(a)
  {
    match a
    case StartCleanup => if s.cleanup.NotRun? then s.(phase := Cleaning, cleanup := Announcing) else s
    case Announced(reason) => if s.cleanup.Announcing? then AnnouncedStep(s, reason) else s
    case Saved(ok, e) =>
      if !s.cleanup.Saving? then s
      else if !ok then FaultCapsule(s, e).(cleanup := Stuck)
      else s.(cleanup := if IsActive(s, s.cleanup.turn) then Sending(s.cleanup.turn) else Stopping)
    case Sent(ok, e) =>
      if !s.cleanup.Sending? then s
      else if ok then s.(cleanup := Stopping)
      else FaultCapsule(s, e).(cleanup := Stuck)
    case Stopped =>
      if !s.cleanup.Stopping? then s
      else if s.active.None? || s.phase.Cleaning? || s.phase.Closed? then
        SettleActive(s.(hard := true), false).(cleanup := Persisting)
      else SettleActive(s.(hard := true), false).(cleanup := LastWrite(s.active.value))
    case Persisted(ok) =>
      if !s.cleanup.Persisting? then s
      else if ok then s.(cleanup := Over, phase := Closed)
      else s.(cleanup := Over)
  }

  function Next(s: State, a: Action): State {
    match a
    case Claim(id) => ClaimStep(s, id)
    case Fault(e) => FaultCapsule(s, e)
    case Exit(e) =>
      SettleActive((if s.phase.Cleaning? || s.phase.Closed? then s else FirstError(s, e)).(phase := Closed), false)
    case Request(t, reason) => RequestPolicy(s, t, Asked(reason))
    case BeginActivity(_) => ActivityStep(s, a)
    case Arm(_) => ActivityStep(s, a)
    case TimerFires(_, _) => ActivityStep(s, a)
    case Written(t, ok, e) => WrittenStep(s, t, ok, e)
    case StartCleanup => CleanupStep(s, a)
    case Announced(_) => CleanupStep(s, a)
    case Saved(_, _) => CleanupStep(s, a)
    case Sent(_, _) => CleanupStep(s, a)
    case Stopped => CleanupStep(s, a)
    case Persisted(_) => CleanupStep(s, a)
    case ReadyMessage(_) => MessageStep(s, a)
    case EventMessage(_, _, _, _, _) => MessageStep(s, a)
    case TerminalMessage(_, _) => MessageStep(s, a)
    case FailedMessage(_) => MessageStep(s, a)
    case ClosedMessage => MessageStep(s, a)
  }

  function Exec(s: State, run: seq<Action>): State
    decreases |run|
  {
    if run == [] then s else Exec(Next(s, run[0]), run[1..])
  }

  // ---------------------------------------------------------------------------
  // The invariant
  // ---------------------------------------------------------------------------

  /** A resolution tells what has happened in its Turn. */
  predicate Faithful(turn: Turn, r: Settlement) {
    && r.count == turn.sequence && r.finalResponse == TurnReducer.Final(turn.trace)
    && r.policy == turn.policy && r.sinkFailed == turn.rejected.Some?
  }

  /** Events are numbered in order; the sink sees them up to and including its first rejection. */
  predicate Numbered(turn: Turn) {
    && |turn.trace| == turn.sequence
    && (forall i | 0 <= i < |turn.trace| :: turn.trace[i].Observe?)
    && (turn.rejected.Some? ==> turn.rejected.value < turn.sequence && turn.policy.Some?)
    && |turn.seen| == (if turn.rejected.Some? then turn.rejected.value + 1 else turn.sequence)
    && forall i | 0 <= i < |turn.seen| :: turn.seen[i] == i
  }

  /** As long as a policy can be recorded, no event has come after the current silence began. */
  predicate Silent(turn: Turn) {
    turn.silence.Some? ==>
      && turn.silence.value.id < turn.silences
      && (turn.policy.None? ==> turn.silence.value.since == turn.sequence)
  }

  predicate Resolved(turn: Turn) {
    && |turn.settled| + (if turn.pending.Some? then 1 else 0) == (if turn.terminal then 1 else 0)
    && (turn.pending.Some? ==> Faithful(turn, turn.pending.value))
    && (turn.settled != [] ==> Faithful(turn, turn.settled[0]))
  }

  predicate TurnOk(s: State, t: nat) {
    t < |s.turns| ==>
      && Numbered(s.turns[t]) && Silent(s.turns[t]) && Resolved(s.turns[t])
      && (!s.turns[t].terminal ==> s.active == Some(t))
  }

  /** The silence a timer was armed for is still the current one only if it is that object. */
  predicate TimerOk(s: State, t: nat, q: Silence) {
    (t, q) in s.timers ==>
      && t < |s.turns| && q.id < s.turns[t].silences && q.since <= s.turns[t].sequence
      && (s.turns[t].silence.Some? && s.turns[t].silence.value.id == q.id ==> s.turns[t].silence.value == q)
  }

  ghost predicate Inv(s: State) {
    && (s.active.Some? ==> IsActive(s, s.active.value))
    && (forall t: nat :: TurnOk(s, t))
    && (forall t: nat, q :: TimerOk(s, t, q))
  }

  /** What a Turn never takes back. */
  predicate Later(x: Turn, y: Turn) {
    && y.id == x.id
    && x.sequence <= y.sequence && x.seen <= y.seen && x.trace <= y.trace
    && x.silences <= y.silences
    && (x.policy.Some? ==> y.policy == x.policy)
    && (x.rejected.Some? ==> y.rejected == x.rejected)
    && (x.terminal ==>
          y.terminal && y.sequence == x.sequence && y.trace == x.trace && y.policy == x.policy && y.seen == x.seen)
    && x.settled <= y.settled
  }

  ghost predicate Grows(s: State, n: State) {
    && |s.turns| <= |n.turns| && s.timers <= n.timers
    && forall t | 0 <= t < |s.turns| :: Later(s.turns[t], n.turns[t])
  }

  lemma GrowsTrans(s: State, n: State, m: State)
    requires Grows(s, n) && Grows(n, m)
    ensures Grows(s, m)
  {
    forall t | 0 <= t < |s.turns|
      ensures Later(s.turns[t], m.turns[t])
    {
      assert Later(s.turns[t], n.turns[t]) && Later(n.turns[t], m.turns[t]);
    }
  }

  /** The silence stays, or a new object takes its place. */
  predicate Renewed(x: Turn, y: Turn) {
    || (y.silence == x.silence && y.silences == x.silences)
    || (y.silence == Some(Silence(x.silences, y.sequence)) && y.silences == x.silences + 1)
  }

  /** One Turn moves on, and with it whether it is the active one. */
  lemma TurnMoves(s: State, t: nat, turn: Turn, active: Option<nat>, phase: Phase)
    requires Inv(s) && t < |s.turns| && Later(s.turns[t], turn)
    requires Numbered(turn) && Silent(turn) && Resolved(turn) && Renewed(s.turns[t], turn)
    requires active == s.active || (active.None? && s.active == Some(t))
    requires active == Some(t) <==> !turn.terminal
    ensures var n := SetTurn(s, t, turn).(active := active, phase := phase); Inv(n) && Grows(s, n)
  {
    var n := SetTurn(s, t, turn).(active := active, phase := phase);
    forall u: nat
      ensures TurnOk(n, u)
    {
      assert TurnOk(s, u);
    }
    forall u: nat, q
      ensures TimerOk(n, u, q)
    {
      assert TimerOk(s, u, q);
    }
  }

  lemma PolicyKeeps(s: State, t: nat, policy: Policy)
    requires Inv(s)
    ensures Inv(RequestPolicy(s, t, policy)) && Grows(s, RequestPolicy(s, t, policy))
  {
    assert TurnOk(s, t);
    if IsActive(s, t) && s.turns[t].policy.None? {
      TurnMoves(s, t, s.turns[t].(policy := Some(policy)), s.active, if s.phase.Cleaning? then Cleaning else Cancelling);
    }
  }

  lemma SettleKeeps(s: State, terminal: bool)
    requires Inv(s)
    ensures Inv(SettleActive(s, terminal)) && Grows(s, SettleActive(s, terminal))
    ensures SettleActive(s, terminal).active.None?
  {
    if s.active.Some? {
      var t := s.active.value;
      assert TurnOk(s, t);
      var turn := s.turns[t].(terminal := true);
      var r := Resolution(s, turn, terminal);
      ReducedFaithfully(turn);
      if s.phase.Cleaning? || s.phase.Closed? {
        TurnMoves(s, t, turn.(settled := turn.settled + [r]), None, s.phase);
      } else {
        TurnMoves(s, t, turn.(pending := Some(r)), None, Ready);
      }
    }
  }

  /** What the reducer counts is what was numbered, and its final response is that of the trace. */
  lemma ReducedFaithfully(turn: Turn)
    requires Numbered(turn)
    ensures TurnReducer.After(turn.trace).count == turn.sequence
    ensures TurnReducer.FinalResponse(TurnReducer.After(turn.trace)) == TurnReducer.Final(turn.trace)
  {
    TurnReducer.CountsEveryEvent(turn.trace);
    TurnReducer.AllObserved(turn.trace);
    TurnReducer.FinalResponseMeans(turn.trace);
  }

  /** A change of what the sink has seen, beside a newly observed event. */
  lemma ObservedKeeps(s: State, t: nat, op: TurnReducer.Op, seen: seq<nat>, rejected: Option<nat>,
      policy: Option<Policy>, phase: Phase)
    requires Inv(s) && IsActive(s, t) && op.Observe?
    requires var turn := Observed(s.turns[t], op).(seen := seen, rejected := rejected, policy := policy);
             Numbered(turn) && Later(s.turns[t], turn)
    ensures var turn := Observed(s.turns[t], op).(seen := seen, rejected := rejected, policy := policy);
            var n := SetTurn(s, t, turn).(phase := phase); Inv(n) && Grows(s, n)
  {
    assert TurnOk(s, t);
    var turn := Observed(s.turns[t], op).(seen := seen, rejected := rejected, policy := policy);
    TurnMoves(s, t, turn, s.active, phase);
  }

  /** The sink rejects an event for the first time, and asks for a policy where there is none. */
  lemma RejectKeeps(s: State, t: nat, op: TurnReducer.Op)
    requires Inv(s) && IsActive(s, t) && op.Observe? && s.turns[t].rejected.None?
    ensures Inv(Observe(s, t, op, false)) && Grows(s, Observe(s, t, op, false))
  {
    assert TurnOk(s, t);
    var turn := s.turns[t];
    var shown, first := turn.seen + [turn.sequence], Some(turn.sequence);
    if turn.policy.Some? {
      ObservedKeeps(s, t, op, shown, first, turn.policy, s.phase);
    } else {
      var phase := if s.phase.Cleaning? then Cleaning else Cancelling;
      RejectedNow(s, t, op, phase);
      ObservedKeeps(s, t, op, shown, first, Some(Asked(EventSink)), phase);
    }
  }

  lemma RejectedNow(s: State, t: nat, op: TurnReducer.Op, phase: Phase)
    requires IsActive(s, t) && s.turns[t].rejected.None? && s.turns[t].policy.None?
    requires phase == if s.phase.Cleaning? then Cleaning else Cancelling
    ensures var turn := s.turns[t];
            var n := Observed(turn, op).(seen := turn.seen + [turn.sequence], rejected := Some(turn.sequence),
                                         policy := Some(Asked(EventSink)));
            Observe(s, t, op, false) == SetTurn(s, t, n).(phase := phase)
  {
    var turn := s.turns[t];
    var refused := Observed(turn, op).(seen := turn.seen + [turn.sequence], rejected := Some(turn.sequence));
    var n := refused.(policy := Some(Asked(EventSink)));
    assert s.turns[t := refused][t := n] == s.turns[t := n];
  }

  lemma ObserveKeeps(s: State, t: nat, op: TurnReducer.Op, accepted: bool)
    requires Inv(s) && IsActive(s, t) && op.Observe?
    ensures Inv(Observe(s, t, op, accepted)) && Grows(s, Observe(s, t, op, accepted))
  {
    assert TurnOk(s, t);
    var turn := s.turns[t];
    if turn.rejected.Some? {
      ObservedKeeps(s, t, op, turn.seen, turn.rejected, turn.policy, s.phase);
    } else if accepted {
      ObservedKeeps(s, t, op, turn.seen + [turn.sequence], None, turn.policy, s.phase);
    } else {
      RejectKeeps(s, t, op);
    }
  }

  /** Timers of the current silence may be armed at any time. */
  lemma ActivityKeeps(s: State, a: Action)
    requires Inv(s) && (a.BeginActivity? || a.Arm? || a.TimerFires?)
    ensures Inv(ActivityStep(s, a)) && Grows(s, ActivityStep(s, a))
  {
    var t, n := a.t, ActivityStep(s, a);
    assert TurnOk(s, t);
    if a.BeginActivity? && IsActive(s, t) {
      TurnMoves(s, t, RecordActivity(s.turns[t]), s.active, s.phase);
    } else if a.Arm? {
      forall u: nat
        ensures TurnOk(n, u)
      {
        assert TurnOk(s, u);
      }
      forall u: nat, q
        ensures TimerOk(n, u, q)
      {
        assert TimerOk(s, u, q);
      }
    } else if a.TimerFires? {
      PolicyKeeps(s, t, Inactivity(a.silence.since));
    }
  }

  lemma MessageKeeps(s: State, a: Action)
    requires Inv(s)
    requires a.ReadyMessage? || a.EventMessage? || a.TerminalMessage? || a.FailedMessage? || a.ClosedMessage?
    ensures Inv(MessageStep(s, a)) && Grows(s, MessageStep(s, a))
  {
    SettleKeeps(s, true);
    OutsideKeeps(s, if a.ReadyMessage? then s.(phase := Ready) else s.(phase := Closed));
    if !a.ClosedMessage? {
      FaultKeeps(s, a.e);
    }
    if a.EventMessage? && s.active.Some? {
      ObserveKeeps(s, s.active.value, TurnReducer.Observe(a.at, a.event), a.accepted);
    }
  }

  lemma FaultKeeps(s: State, e: Error)
    requires Inv(s)
    ensures Inv(FaultCapsule(s, e)) && Grows(s, FaultCapsule(s, e))
  {
    OutsideKeeps(s, FirstError(s, e));
    SettleKeeps(FirstError(s, e), false);
    GrowsTrans(s, FirstError(s, e), FaultCapsule(s, e));
  }

  /** A step that changes nothing about the Turns. */
  lemma OutsideKeeps(s: State, n: State)
    requires Inv(s) && n.turns == s.turns && n.active == s.active && n.timers == s.timers
    ensures Inv(n) && Grows(s, n)
  {
    forall t: nat
      ensures TurnOk(n, t)
    {
      assert TurnOk(s, t);
    }
    forall t: nat, q
      ensures TimerOk(n, t, q)
    {
      assert TimerOk(s, t, q);
    }
  }

  lemma ClaimKeeps(s: State, id: TurnId)
    requires Inv(s)
    ensures Inv(ClaimStep(s, id)) && Grows(s, ClaimStep(s, id))
  {
    var n := ClaimStep(s, id);
    forall t: nat
      ensures TurnOk(n, t)
    {
      assert TurnOk(s, t);
    }
    forall t: nat, q
      ensures TimerOk(n, t, q)
    {
      assert TimerOk(s, t, q);
    }
  }

  lemma WrittenKeeps(s: State, t: nat, ok: bool, e: Error)
    requires Inv(s)
    ensures Inv(WrittenStep(s, t, ok, e)) && Grows(s, WrittenStep(s, t, ok, e))
  {
    assert TurnOk(s, t);
    if t < |s.turns| && s.turns[t].pending.Some? {
      var m := if ok then s else FirstError(s, e);
      OutsideKeeps(s, m);
      var turn := s.turns[t];
      var r := if ok then turn.pending.value else turn.pending.value.(error := Some(e));
      TurnMoves(m, t, turn.(pending := None, settled := turn.settled + [r]), m.active, m.phase);
      var n := SetTurn(m, t, turn.(pending := None, settled := turn.settled + [r])).(active := m.active, phase := m.phase);
      GrowsTrans(s, m, n);
      StageKeeps(s, n, WrittenStep(s, t, ok, e).cleanup);
    }
  }

  /** Where the cleanup is matters to no Turn. */
  lemma StageKeeps(s: State, n: State, cleanup: Cleanup)
    requires Inv(n) && Grows(s, n)
    ensures Inv(n.(cleanup := cleanup)) && Grows(s, n.(cleanup := cleanup))
  {
    OutsideKeeps(n, n.(cleanup := cleanup));
    GrowsTrans(s, n, n.(cleanup := cleanup));
  }

  lemma CleanupKeeps(s: State, a: Action)
    requires Inv(s) && OfCleanup(a)
    ensures Inv(CleanupStep(s, a)) && Grows(s, CleanupStep(s, a))
  {
    var n := CleanupStep(s, a);
    match a
    case StartCleanup => OutsideKeeps(s, n);
    case Announced(reason) =>
      OutsideKeeps(s, s.(cleanup := Stopping));
      OutsideKeeps(s, s);
      if s.active.Some? {
        PolicyKeeps(s, s.active.value, Asked(reason));
        StageKeeps(s, RequestPolicy(s, s.active.value, Asked(reason)), n.cleanup);
      }
    case Saved(ok, e) => FailureKeeps(s, a, e);
    case Sent(ok, e) => FailureKeeps(s, a, e);
    case Stopped =>
      var m := s.(hard := true);
      OutsideKeeps(s, s);
      OutsideKeeps(s, m);
      SettleKeeps(m, false);
      GrowsTrans(s, m, SettleActive(m, false));
      StageKeeps(s, SettleActive(m, false), n.cleanup);
    case Persisted(_) => OutsideKeeps(s, n);
  }

  lemma FailureKeeps(s: State, a: Action, e: Error)
    requires Inv(s) && (a.Saved? || a.Sent?) && a.e == e
    ensures Inv(CleanupStep(s, a)) && Grows(s, CleanupStep(s, a))
  {
    var n := CleanupStep(s, a);
    if n.cleanup.Stuck? && !s.cleanup.Stuck? {
      FaultKeeps(s, e);
      StageKeeps(s, FaultCapsule(s, e), Stuck);
    } else {
      OutsideKeeps(s, n);
    }
  }

  lemma ExitKeeps(s: State, e: Error)
    requires Inv(s)
    ensures Inv(Next(s, Exit(e))) && Grows(s, Next(s, Exit(e)))
  {
    var n := (if s.phase.Cleaning? || s.phase.Closed? then s else FirstError(s, e)).(phase := Closed);
    OutsideKeeps(s, n);
    SettleKeeps(n, false);
  }

  lemma InvNext(s: State, a: Action)
    requires Inv(s)
    ensures Inv(Next(s, a)) && Grows(s, Next(s, a))
  {
    match a
    case Claim(id) => ClaimKeeps(s, id);
    case Fault(e) => FaultKeeps(s, e);
    case Exit(e) => ExitKeeps(s, e);
    case Request(t, reason) => PolicyKeeps(s, t, Asked(reason));
    case BeginActivity(_) => ActivityKeeps(s, a);
    case Arm(_) => ActivityKeeps(s, a);
    case TimerFires(_, _) => ActivityKeeps(s, a);
    case Written(t, ok, e) => WrittenKeeps(s, t, ok, e);
    case StartCleanup => CleanupKeeps(s, a);
    case Announced(_) => CleanupKeeps(s, a);
    case Saved(_, _) => CleanupKeeps(s, a);
    case Sent(_, _) => CleanupKeeps(s, a);
    case Stopped => CleanupKeeps(s, a);
    case Persisted(_) => CleanupKeeps(s, a);
    case ReadyMessage(_) => MessageKeeps(s, a);
    case EventMessage(_, _, _, _, _) => MessageKeeps(s, a);
    case TerminalMessage(_, _) => MessageKeeps(s, a);
    case FailedMessage(_) => MessageKeeps(s, a);
    case ClosedMessage => MessageKeeps(s, a);
  }

  lemma {:induction false} InvExec(s: State, run: seq<Action>)
    requires Inv(s)
    ensures Inv(Exec(s, run)) && Grows(s, Exec(s, run))
    decreases |run|
  {
    if run != [] {
      InvNext(s, run[0]);
      InvExec(Next(s, run[0]), run[1..]);
      GrowsTrans(s, Next(s, run[0]), Exec(s, run));
    }
  }

  lemma InvInit()
    ensures Inv(INIT)
  {
  }

  lemma {:induction false} ExecAppend(s: State, x: seq<Action>, y: seq<Action>)
    ensures Exec(s, x + y) == Exec(Exec(s, x), y)
    decreases |x|
  {
    if x == [] {
      assert x + y == y;
    } else {
      assert (x + y)[1..] == x[1..] + y;
      ExecAppend(Next(s, x[0]), x[1..], y);
    }
  }

  // ---------------------------------------------------------------------------
  // Main results
  // ---------------------------------------------------------------------------

  /** At most one Turn is unfinished, and it is the active one. */
  lemma OneTurnAtATime(run: seq<Action>, t: nat, u: nat)
    requires var s := Exec(INIT, run);
             t < |s.turns| && u < |s.turns| && !s.turns[t].terminal && !s.turns[u].terminal
    ensures t == u && Exec(INIT, run).active == Some(t)
  {
    InvInit();
    InvExec(INIT, run);
    assert TurnOk(Exec(INIT, run), t) && TurnOk(Exec(INIT, run), u);
  }

  /** A settlement is resolved at most once, only after its Turn ended, and it reports the whole Turn. */
  lemma SettlesOnce(run: seq<Action>, t: nat)
    requires t < |Exec(INIT, run).turns|
    ensures var turn := Exec(INIT, run).turns[t];
            && |turn.settled| <= 1
            && (turn.settled != [] ==> turn.terminal && Faithful(turn, turn.settled[0]))
  {
    InvInit();
    InvExec(INIT, run);
    assert TurnOk(Exec(INIT, run), t);
  }

  /** Each event is numbered, and counted by the reducer, once; the sink sees 0, 1, 2, … up to its first rejection. */
  lemma EventsInOrder(run: seq<Action>, t: nat)
    requires t < |Exec(INIT, run).turns|
    ensures Numbered(Exec(INIT, run).turns[t])
    ensures TurnReducer.After(Exec(INIT, run).turns[t].trace).count == Exec(INIT, run).turns[t].sequence
  {
    InvInit();
    InvExec(INIT, run);
    assert TurnOk(Exec(INIT, run), t);
    ReducedFaithfully(Exec(INIT, run).turns[t]);
  }

  /** The first policy recorded for a Turn is the one its settlement reports, whatever was asked for later. */
  lemma FirstPolicyIsReported(before: seq<Action>, after: seq<Action>, t: nat)
    requires t < |Exec(INIT, before).turns| && Exec(INIT, before).turns[t].policy.Some?
    ensures t < |Exec(INIT, before + after).turns|
    ensures var turn := Exec(INIT, before + after).turns[t];
            && turn.policy == Exec(INIT, before).turns[t].policy
            && (turn.settled != [] ==> turn.settled[0].policy == Exec(INIT, before).turns[t].policy)
  {
    InvInit();
    InvExec(INIT, before);
    ExecAppend(INIT, before, after);
    InvExec(Exec(INIT, before), after);
    SettlesOnce(before + after, t);
    assert Later(Exec(INIT, before).turns[t], Exec(INIT, before + after).turns[t]);
  }

  /** What a finished Turn has said is final: no event, policy or resolution is added to it. */
  lemma FinishedIsFinal(before: seq<Action>, after: seq<Action>, t: nat)
    requires t < |Exec(INIT, before).turns| && Exec(INIT, before).turns[t].settled != []
    ensures t < |Exec(INIT, before + after).turns|
    ensures Exec(INIT, before + after).turns[t].settled == Exec(INIT, before).turns[t].settled
    ensures Exec(INIT, before + after).turns[t].sequence == Exec(INIT, before).turns[t].sequence
  {
    InvInit();
    InvExec(INIT, before);
    ExecAppend(INIT, before, after);
    InvExec(Exec(INIT, before), after);
    SettlesOnce(before, t);
    SettlesOnce(before + after, t);
    assert Later(Exec(INIT, before).turns[t], Exec(INIT, before + after).turns[t]);
  }

  /** This action records an inactivity policy for the Turn, whose silence began at its last observed event. */
  predicate RecordsInactivity(s: State, a: Action, t: nat, since: nat) {
    && a.TimerFires? && a.t == t && (t, a.silence) in s.timers && a.silence.since == since
    && t < |s.turns| && s.turns[t].policy.None? && s.turns[t].sequence == since
  }

  /** Only a timer records an inactivity policy, and only one whose silence nothing has interrupted. */
  lemma InactivityStep(s: State, a: Action, t: nat, since: nat)
    requires Inv(s)
    requires t < |Next(s, a).turns| && Next(s, a).turns[t].policy == Some(Inactivity(since))
    ensures (t < |s.turns| && s.turns[t].policy == Some(Inactivity(since))) || RecordsInactivity(s, a, t, since)
  {
    if a.TimerFires? {
      assert TurnOk(s, a.t) && TimerOk(s, a.t, a.silence);
    } else {
      OthersRecordNone(s, a, t);
    }
  }

  predicate NoNewInactivity(s: State, n: State, t: nat) {
    t < |n.turns| && n.turns[t].policy.Some? && n.turns[t].policy.value.Inactivity? ==>
      t < |s.turns| && n.turns[t].policy == s.turns[t].policy
  }

  lemma SettleRecordsNone(s: State, terminal: bool, t: nat)
    ensures NoNewInactivity(s, SettleActive(s, terminal), t)
  {
  }

  lemma MessageRecordsNone(s: State, a: Action, t: nat)
    requires a.ReadyMessage? || a.EventMessage? || a.TerminalMessage? || a.FailedMessage? || a.ClosedMessage?
    ensures NoNewInactivity(s, MessageStep(s, a), t)
  {
    SettleRecordsNone(s, true, t);
    if !a.ClosedMessage? {
      SettleRecordsNone(FirstError(s, a.e), false, t);
    }
    if a.EventMessage? && s.active.Some? && s.active.value < |s.turns| {
      ObserveRecordsNone(s, s.active.value, TurnReducer.Observe(a.at, a.event), a.accepted, t);
    }
  }

  lemma ObserveRecordsNone(s: State, u: nat, op: TurnReducer.Op, accepted: bool, t: nat)
    requires u < |s.turns|
    ensures NoNewInactivity(s, Observe(s, u, op, accepted), t)
  {
  }

  lemma CleanupRecordsNone(s: State, a: Action, t: nat)
    requires OfCleanup(a)
    ensures NoNewInactivity(s, CleanupStep(s, a), t)
  {
    if a.Stopped? {
      SettleRecordsNone(s.(hard := true), false, t);
    } else if a.Saved? || a.Sent? {
      SettleRecordsNone(FirstError(s, a.e), false, t);
    }
  }

  lemma ExitRecordsNone(s: State, e: Error, t: nat)
    ensures NoNewInactivity(s, Next(s, Exit(e)), t)
  {
    SettleRecordsNone((if s.phase.Cleaning? || s.phase.Closed? then s else FirstError(s, e)).(phase := Closed), false, t);
  }

  lemma OthersRecordNone(s: State, a: Action, t: nat)
    requires !a.TimerFires?
    ensures NoNewInactivity(s, Next(s, a), t)
  {
    if a.ReadyMessage? || a.EventMessage? || a.TerminalMessage? || a.FailedMessage? || a.ClosedMessage? {
      MessageRecordsNone(s, a, t);
    } else if OfCleanup(a) {
      CleanupRecordsNone(s, a, t);
    } else if a.Fault? {
      SettleRecordsNone(FirstError(s, a.e), false, t);
    } else if a.Exit? {
      ExitRecordsNone(s, a.e, t);
    }
  }

  /**
   * On every run an inactivity policy was recorded by a timer armed before, at a moment when no event
   * had come after the silence it names.
   */
  lemma {:induction false} InactivityMeansSilence(run: seq<Action>, t: nat, since: nat) returns (k: nat)
    requires t < |Exec(INIT, run).turns| && Exec(INIT, run).turns[t].policy == Some(Inactivity(since))
    ensures k < |run| && RecordsInactivity(Exec(INIT, run[..k]), run[k], t, since)
    decreases |run|
  {
    assert run != [];
    var n := |run| - 1;
    var before, a := run[..n], run[n];
    assert run == before + [a];
    ExecAppend(INIT, before, [a]);
    assert [a][1..] == [] && Exec(Exec(INIT, before), [a]) == Exec(Next(Exec(INIT, before), a), []);
    InvInit();
    InvExec(INIT, before);
    InactivityStep(Exec(INIT, before), a, t, since);
    if RecordsInactivity(Exec(INIT, before), a, t, since) {
      k := n;
    } else {
      k := InactivityMeansSilence(before, t, since);
      assert before[..k] == run[..k];
    }
  }

  /** A timer armed before an event that has been observed since does nothing when it fires. */
  lemma StaleTimerIgnored(before: seq<Action>, after: seq<Action>, t: nat, q: Silence)
    requires (t, q) in Exec(INIT, before).timers && t < |Exec(INIT, before).turns|
    requires var n := Exec(INIT, before + after);
             t < |n.turns| && n.turns[t].sequence > Exec(INIT, before).turns[t].sequence
    ensures Next(Exec(INIT, before + after), TimerFires(t, q)) == Exec(INIT, before + after)
  {
    var s, n := Exec(INIT, before), Exec(INIT, before + after);
    InvInit();
    InvExec(INIT, before);
    ExecAppend(INIT, before, after);
    InvExec(s, after);
    assert TimerOk(s, t, q) && TimerOk(n, t, q) && TurnOk(n, t);
  }

  // ---------------------------------------------------------------------------
  // What a settlement tells about the end of its Turn
  // ---------------------------------------------------------------------------

  predicate OfActive(s: State, id: TurnId) {
    s.active.Some? && IsActive(s, s.active.value) && s.turns[s.active.value].id == id
  }

  /** The error that a step raises: every fault, a failed write, and a message or an exit that was not due. */
  function Raised(s: State, a: Action): Option<Error> {
    match a
    case Fault(e) => Some(e)
    case FailedMessage(e) => Some(e)
    case ReadyMessage(e) => if s.phase.Opening? then None else Some(e)
    case EventMessage(id, _, _, _, e) => if OfActive(s, id) then None else Some(e)
    case TerminalMessage(id, e) => if OfActive(s, id) then None else Some(e)
    case Exit(e) => if s.phase.Cleaning? || s.phase.Closed? then None else Some(e)
    case Written(t, ok, e) => if !ok && t < |s.turns| && s.turns[t].pending.Some? then Some(e) else None
    case Saved(ok, e) => if !ok && s.cleanup.Saving? then Some(e) else None
    case Sent(ok, e) => if !ok && s.cleanup.Sending? then Some(e) else None
    case _ => None
  }

  /** The first error raised on the run. */
  function FirstRaised(run: seq<Action>): Option<Error> {
    if run == [] then None
    else
      var n := |run| - 1;
      if FirstRaised(run[..n]).Some? then FirstRaised(run[..n]) else Raised(Exec(INIT, run[..n]), run[n])
  }

  /** The cleanup has stopped the process on the run. */
  predicate StoppedHard(run: seq<Action>) {
    run != [] &&
    var n := |run| - 1;
    StoppedHard(run[..n]) || (run[n].Stopped? && Exec(INIT, run[..n]).cleanup.Stopping?)
  }

  predicate Ends(s: State, a: Action, t: nat) {
    IsActive(s, t) && t < |Next(s, a).turns| && Next(s, a).turns[t].terminal
  }

  predicate OwnTerminal(s: State, a: Action, t: nat) {
    t < |s.turns| && a.TerminalMessage? && a.id == s.turns[t].id
  }

  /** The manifest write after the end of Turn `t` fails. */
  predicate WriteFails(s: State, a: Action, t: nat) {
    a.Written? && a.t == t && !a.ok && t < |s.turns| && s.turns[t].pending.Some?
  }

  /** The error of the failed write of Turn `t` on the run. */
  function WriteError(run: seq<Action>, t: nat): Option<Error> {
    if run == [] then None
    else
      var n := |run| - 1;
      if WriteFails(Exec(INIT, run[..n]), run[n], t) then Some(run[n].e) else WriteError(run[..n], t)
  }

  /** The resolution of a Turn that has ended, whether it has been handed over or waits for its write. */
  function ResolutionOf(turn: Turn): Option<Settlement> {
    if turn.settled != [] then Some(turn.settled[0]) else turn.pending
  }

  /** What a resolution tells when the Turn ended at step `k`, apart from a failing write. */
  predicate Tells(run: seq<Action>, k: nat, t: nat, r: Settlement) {
    && k < |run| && Ends(Exec(INIT, run[..k]), run[k], t)
    && (r.terminal <==> OwnTerminal(Exec(INIT, run[..k]), run[k], t))
    && (r.hard <==> StoppedHard(run[..k + 1]))
  }

  /** The error of a failed write; or else, after anything but the terminal message, the first error so far. */
  function ErrorTold(run: seq<Action>, t: nat, k: nat, terminal: bool): Option<Error>
    requires k < |run|
  {
    if WriteError(run, t).Some? then WriteError(run, t) else if terminal then None else FirstRaised(run[..k + 1])
  }

  lemma SettleErrors(s: State, terminal: bool)
    ensures SettleActive(s, terminal).error == s.error && SettleActive(s, terminal).hard == s.hard
    ensures |SettleActive(s, terminal).turns| == |s.turns|
  {
  }

  lemma MessageErrors(s: State, a: Action)
    requires a.ReadyMessage? || a.EventMessage? || a.TerminalMessage? || a.FailedMessage? || a.ClosedMessage?
    ensures MessageStep(s, a).error == (if s.error.Some? then s.error else Raised(s, a))
    ensures MessageStep(s, a).hard == s.hard && |MessageStep(s, a).turns| == |s.turns|
  {
    SettleErrors(s, true);
    if !a.ClosedMessage? {
      SettleErrors(FirstError(s, a.e), false);
    }
  }

  lemma CleanupErrors(s: State, a: Action)
    requires OfCleanup(a)
    ensures CleanupStep(s, a).error == (if s.error.Some? then s.error else Raised(s, a))
    ensures CleanupStep(s, a).hard <==> s.hard || (a.Stopped? && s.cleanup.Stopping?)
    ensures |CleanupStep(s, a).turns| == |s.turns|
  {
    if a.Stopped? {
      SettleErrors(s.(hard := true), false);
    } else if a.Saved? || a.Sent? {
      SettleErrors(FirstError(s, a.e), false);
    }
  }

  lemma ErrorNext(s: State, a: Action)
    ensures Next(s, a).error == (if s.error.Some? then s.error else Raised(s, a))
    ensures Next(s, a).hard <==> s.hard || (a.Stopped? && s.cleanup.Stopping?)
    ensures !a.Claim? ==> |Next(s, a).turns| == |s.turns|
  {
    if a.ReadyMessage? || a.EventMessage? || a.TerminalMessage? || a.FailedMessage? || a.ClosedMessage? {
      MessageErrors(s, a);
    } else if OfCleanup(a) {
      CleanupErrors(s, a);
    } else if a.Fault? {
      SettleErrors(FirstError(s, a.e), false);
    } else if a.Exit? {
      SettleErrors((if s.phase.Cleaning? || s.phase.Closed? then s else FirstError(s, a.e)).(phase := Closed), false);
    }
  }

  lemma ExecOne(s: State, a: Action)
    ensures Exec(s, [a]) == Next(s, a)
  {
    var t := Next(s, a);
    assert [a][1..] == [] && Exec(t, []) == t;
  }

  lemma ExecSnoc(s: State, run: seq<Action>, n: nat)
    requires |run| == n + 1
    ensures Exec(s, run) == Next(Exec(s, run[..n]), run[n])
  {
    var before, a := run[..n], run[n];
    ExecAppend(s, before, [a]);
    ExecOne(Exec(s, before), a);
    assert before + [a] == run;
  }

  lemma ExecLast(run: seq<Action>)
    requires run != []
    ensures var n := |run| - 1; Exec(INIT, run) == Next(Exec(INIT, run[..n]), run[n])
  {
    ExecSnoc(INIT, run, |run| - 1);
  }

  /** The capsule remembers the first error, and whether it has been stopped. */
  lemma {:induction false} ErrorsRemembered(run: seq<Action>)
    ensures Exec(INIT, run).error == FirstRaised(run) && Exec(INIT, run).hard == StoppedHard(run)
    decreases |run|
  {
    if run != [] {
      var n := |run| - 1;
      ErrorsRemembered(run[..n]);
      ExecLast(run);
      ErrorNext(Exec(INIT, run[..n]), run[n]);
    }
  }

  /** `settleActive` ends the active Turn and says how. */
  lemma SettleTells(s: State, terminal: bool, t: nat)
    requires Inv(s) && t < |s.turns|
    ensures var turn, after := s.turns[t], SettleActive(s, terminal).turns[t];
            && (turn.terminal ==> after == turn)
            && (!turn.terminal ==>
                  && after.terminal && ResolutionOf(after).Some?
                  && (after.pending.Some? <==> SettleActive(s, terminal).phase.Ready?)
                  && var r := ResolutionOf(after).value;
                     r.terminal == terminal && r.hard == s.hard && r.error == if terminal then None else s.error)
  {
    assert TurnOk(s, t);
  }

  /** A step that ends a Turn, or leaves alone what a Turn that has ended tells. */
  predicate EndTold(s: State, n: State, t: nat, terminal: bool) {
    t < |s.turns| && t < |n.turns| &&
    var turn, after := s.turns[t], n.turns[t];
    && (turn.terminal ==> after.pending == turn.pending && after.settled == turn.settled && after.terminal)
    && (!turn.terminal && after.terminal ==>
          && ResolutionOf(after).Some? && (after.pending.Some? <==> n.phase.Ready?)
          && var r := ResolutionOf(after).value;
             r.terminal == terminal && r.hard == n.hard && r.error == if terminal then None else n.error)
  }

  lemma FaultTells(s: State, e: Error, t: nat)
    requires Inv(s) && t < |s.turns|
    ensures EndTold(s, FaultCapsule(s, e), t, false)
  {
    OutsideKeeps(s, FirstError(s, e));
    SettleTells(FirstError(s, e), false, t);
    SettleErrors(FirstError(s, e), false);
  }

  lemma MessageTells(s: State, a: Action, t: nat)
    requires Inv(s) && t < |s.turns|
    requires a.ReadyMessage? || a.EventMessage? || a.TerminalMessage? || a.FailedMessage? || a.ClosedMessage?
    ensures EndTold(s, MessageStep(s, a), t, OwnTerminal(s, a, t))
  {
    assert TurnOk(s, t);
    SettleTells(s, true, t);
    SettleErrors(s, true);
    if !a.ClosedMessage? {
      FaultTells(s, a.e, t);
    }
    if a.EventMessage? && OfActive(s, a.id) {
      ObserveTells(s, s.active.value, TurnReducer.Observe(a.at, a.event), a.accepted, t);
    }
  }

  lemma ObserveTells(s: State, u: nat, op: TurnReducer.Op, accepted: bool, t: nat)
    requires IsActive(s, u) && t < |s.turns|
    ensures EndTold(s, Observe(s, u, op, accepted), t, false)
    ensures Observe(s, u, op, accepted).turns[t].terminal == s.turns[t].terminal
  {
  }

  lemma CleanupTells(s: State, a: Action, t: nat)
    requires Inv(s) && t < |s.turns| && OfCleanup(a)
    ensures EndTold(s, CleanupStep(s, a), t, false)
  {
    if a.Stopped? {
      OutsideKeeps(s, s.(hard := true));
      SettleTells(s.(hard := true), false, t);
      SettleErrors(s.(hard := true), false);
    } else if a.Saved? || a.Sent? {
      FaultTells(s, a.e, t);
    }
  }

  lemma ExitTells(s: State, e: Error, t: nat)
    requires Inv(s) && t < |s.turns|
    ensures EndTold(s, Next(s, Exit(e)), t, false)
  {
    var m := (if s.phase.Cleaning? || s.phase.Closed? then s else FirstError(s, e)).(phase := Closed);
    OutsideKeeps(s, m);
    SettleTells(m, false, t);
    SettleErrors(m, false);
  }

  /** The steps that end no Turn. */
  lemma OthersTell(s: State, a: Action, t: nat)
    requires t < |s.turns| && (a.Claim? || a.Request? || a.BeginActivity? || a.Arm? || a.TimerFires? || a.Written?)
    requires !(a.Written? && a.t == t)
    ensures EndTold(s, Next(s, a), t, false)
    ensures Next(s, a).turns[t].terminal == s.turns[t].terminal
  {
  }

  lemma EndTells(s: State, a: Action, t: nat)
    requires Inv(s) && t < |s.turns| && !(a.Written? && a.t == t)
    ensures EndTold(s, Next(s, a), t, OwnTerminal(s, a, t))
  {
    if a.ReadyMessage? || a.EventMessage? || a.TerminalMessage? || a.FailedMessage? || a.ClosedMessage? {
      MessageTells(s, a, t);
    } else if OfCleanup(a) {
      CleanupTells(s, a, t);
    } else if a.Fault? {
      FaultTells(s, a.e, t);
    } else if a.Exit? {
      ExitTells(s, a.e, t);
    } else {
      OthersTell(s, a, t);
    }
  }

  /** A Turn that has ended tells the same after a step, except that a failed write puts its error in. */
  predicate Carries(s: State, a: Action, n: State, t: nat) {
    t < |s.turns| && t < |n.turns| && s.turns[t].terminal && n.turns[t].terminal &&
    var turn, after := s.turns[t], n.turns[t];
    ResolutionOf(turn).Some? &&
    var r := ResolutionOf(turn).value;
    && (after.pending.Some? ==> turn.pending.Some? && !WriteFails(s, a, t))
    && ResolutionOf(after) == Some(if WriteFails(s, a, t) then r.(error := Some(a.e)) else r)
  }

  lemma StepCarries(s: State, a: Action, t: nat)
    requires Inv(s) && t < |s.turns| && s.turns[t].terminal
    ensures Carries(s, a, Next(s, a), t)
  {
    assert TurnOk(s, t);
    if a.Written? && a.t == t {
      assert Next(s, a) == WrittenStep(s, t, a.ok, a.e);
    } else {
      EndTells(s, a, t);
    }
  }

  /** How a Turn that this step ends is said to have ended. */
  predicate EndsTold(s: State, a: Action, n: State, t: nat) {
    Ends(s, a, t) && !WriteFails(s, a, t) && t < |n.turns| && ResolutionOf(n.turns[t]).Some? &&
    var r := ResolutionOf(n.turns[t]).value;
    && (r.terminal <==> OwnTerminal(s, a, t)) && r.hard == n.hard && r.error == if r.terminal then None else n.error
  }

  lemma ClaimedRuns(s: State, a: Action, t: nat)
    requires |s.turns| <= t < |Next(s, a).turns|
    ensures !Next(s, a).turns[t].terminal
  {
    ErrorNext(s, a);
    assert Next(s, a) == ClaimStep(s, a.id);
  }

  lemma StepEnds(s: State, a: Action, t: nat)
    requires Inv(s) && t < |Next(s, a).turns| && Next(s, a).turns[t].terminal
    requires t < |s.turns| ==> !s.turns[t].terminal
    ensures EndsTold(s, a, Next(s, a), t)
  {
    if t >= |s.turns| {
      ClaimedRuns(s, a, t);
    } else {
      assert TurnOk(s, t);
      if a.Written? && a.t == t {
        WrittenEndsNone(s, a);
      } else {
        EndTells(s, a, t);
      }
    }
  }

  lemma WrittenEndsNone(s: State, a: Action)
    requires a.Written? && a.t < |s.turns| && s.turns[a.t].pending.None?
    ensures Next(s, a) == s
  {
  }

  lemma WrittenSettles(s: State, t: nat, ok: bool, e: Error)
    requires t < |s.turns| && s.turns[t].pending.Some?
    ensures |Next(s, Written(t, ok, e)).turns| == |s.turns|
    ensures |Next(s, Written(t, ok, e)).turns[t].settled| == |s.turns[t].settled| + 1
  {
    assert Next(s, Written(t, ok, e)) == WrittenStep(s, t, ok, e);
  }

  /** A Turn whose end leaves the capsule ready waits for its write, and is settled otherwise. */
  predicate SettledUnlessReady(n: State, t: nat) {
    t < |n.turns| && if n.phase.Ready? then n.turns[t].settled == [] && n.turns[t].pending.Some?
                     else |n.turns[t].settled| == 1
  }

  lemma EndedResolved(s: State, n: State, t: nat, terminal: bool)
    requires EndTold(s, n, t, terminal) && Resolved(n.turns[t]) && !s.turns[t].terminal && n.turns[t].terminal
    ensures SettledUnlessReady(n, t)
  {
  }

  lemma EndSettlesStep(s: State, a: Action, t: nat)
    requires Inv(s) && Ends(s, a, t)
    ensures SettledUnlessReady(Next(s, a), t)
  {
    InvNext(s, a);
    assert TurnOk(s, t) && TurnOk(Next(s, a), t);
    if a.Written? && a.t == t {
      WrittenEndsNone(s, a);
    } else {
      EndTells(s, a, t);
      EndedResolved(s, Next(s, a), t, OwnTerminal(s, a, t));
    }
  }

  /** The step that ends a Turn settles it, or returns the capsule to ready; then its write settles the Turn. */
  lemma EndSettles(run: seq<Action>, a: Action, t: nat, ok: bool, e: Error)
    requires Ends(Exec(INIT, run), a, t)
    ensures var n := Next(Exec(INIT, run), a);
            if n.phase.Ready? then n.turns[t].settled == [] && |Exec(n, [Written(t, ok, e)]).turns| == |n.turns|
                                   && |Exec(n, [Written(t, ok, e)]).turns[t].settled| == 1
            else |n.turns[t].settled| == 1
  {
    InvInit();
    InvExec(INIT, run);
    EndSettlesStep(Exec(INIT, run), a, t);
    var n := Next(Exec(INIT, run), a);
    ExecOne(n, Written(t, ok, e));
    if n.phase.Ready? {
      WrittenSettles(n, t, ok, e);
    }
  }

  /** The resolution of Turn `t` tells about step `k`, at which the Turn ended, and about the write since. */
  predicate Told(run: seq<Action>, t: nat, k: nat) {
    t < |Exec(INIT, run).turns| &&
    var turn := Exec(INIT, run).turns[t];
    turn.terminal && ResolutionOf(turn).Some? &&
    var r := ResolutionOf(turn).value;
    && Tells(run, k, t, r)
    && (turn.pending.Some? ==> WriteError(run, t).None?)
    && r.error == ErrorTold(run, t, k, r.terminal)
  }

  /** No write of a Turn has failed before its end. */
  lemma {:induction false} NoWriteBefore(run: seq<Action>, t: nat)
    requires t < |Exec(INIT, run).turns| ==> !Exec(INIT, run).turns[t].terminal
    ensures WriteError(run, t).None?
    decreases |run|
  {
    if run != [] {
      var n := |run| - 1;
      InvInit();
      InvExec(INIT, run[..n]);
      var s := Exec(INIT, run[..n]);
      InvNext(s, run[n]);
      ExecLast(run);
      assert t < |s.turns| ==> Later(s.turns[t], Exec(INIT, run).turns[t]);
      assert TurnOk(s, t);
      NoWriteBefore(run[..n], t);
    }
  }

  lemma ToldNow(run: seq<Action>, t: nat)
    requires run != [] && t < |Exec(INIT, run).turns| && Exec(INIT, run).turns[t].terminal
    requires EndsTold(Exec(INIT, run[..|run| - 1]), run[|run| - 1], Exec(INIT, run), t)
    requires WriteError(run[..|run| - 1], t).None?
    ensures Told(run, t, |run| - 1)
  {
    ErrorsRemembered(run);
    assert run[..|run|] == run;
  }

  lemma TellsLater(run: seq<Action>, t: nat, k: nat, r: Settlement)
    requires run != [] && Tells(run[..|run| - 1], k, t, r)
    ensures Tells(run, k, t, r) && run[..|run| - 1][..k + 1] == run[..k + 1]
  {
    var before := run[..|run| - 1];
    assert before[..k + 1] == run[..k + 1] && before[..k] == run[..k] && before[k] == run[k];
  }

  lemma ToldLater(run: seq<Action>, t: nat, k: nat)
    requires run != [] && Told(run[..|run| - 1], t, k)
    requires Carries(Exec(INIT, run[..|run| - 1]), run[|run| - 1], Exec(INIT, run), t)
    ensures Told(run, t, k)
  {
    var s := Exec(INIT, run[..|run| - 1]);
    var r := ResolutionOf(s.turns[t]).value;
    TellsLater(run, t, k, r);
    var after := ResolutionOf(Exec(INIT, run).turns[t]).value;
    assert after.terminal == r.terminal && after.hard == r.hard;
    assert Tells(run, k, t, after);
  }

  lemma {:induction false} EndFound(run: seq<Action>, t: nat) returns (k: nat)
    requires t < |Exec(INIT, run).turns| && Exec(INIT, run).turns[t].terminal
    ensures Told(run, t, k)
    decreases |run|
  {
    assert run != [];
    var n := |run| - 1;
    var s := Exec(INIT, run[..n]);
    InvInit();
    InvExec(INIT, run[..n]);
    ExecLast(run);
    if t < |s.turns| && s.turns[t].terminal {
      k := EndFound(run[..n], t);
      StepCarries(s, run[n], t);
      ToldLater(run, t, k);
    } else {
      k := n;
      StepEnds(s, run[n], t);
      NoWriteBefore(run[..n], t);
      ToldNow(run, t);
    }
  }

  /**
   * A settlement tells how its Turn ended at some step of the run: it is terminal exactly if the Turn's own
   * terminal message ended it, hard exactly if the process had been stopped by then, and its error is that of a
   * failed manifest write, or else none after the terminal message and the first error raised after anything else.
   */
  lemma SettlementTellsTheEnd(run: seq<Action>, t: nat) returns (k: nat)
    requires t < |Exec(INIT, run).turns| && Exec(INIT, run).turns[t].settled != []
    ensures var r := Exec(INIT, run).turns[t].settled[0];
            Tells(run, k, t, r) && r.error == ErrorTold(run, t, k, r.terminal)
  {
    SettlesOnce(run, t);
    k := EndFound(run, t);
  }

  // ---------------------------------------------------------------------------
  // Turns after the cleanup has begun
  // ---------------------------------------------------------------------------

  /** Cleanup has begun and no Turn without a policy is left to change the phase. */
  predicate Shut(s: State) {
    && (s.cleanup.Announcing? || s.cleanup.Stopping? || s.cleanup.Persisting? || s.cleanup.Over?)
    && (s.phase.Cleaning? || s.phase.Closed?)
    && (s.active.Some? ==> s.active.value < |s.turns| && s.turns[s.active.value].policy.Some?)
  }

  /** Nothing is claimed, and a closed capsule stays closed. */
  predicate StaysShut(s: State, n: State) {
    Shut(n) && |n.turns| == |s.turns| && (s.phase.Closed? ==> n.phase.Closed?) && (s.cleanup.Over? ==> n.cleanup.Over?)
  }

  lemma SettleShut(s: State, terminal: bool)
    requires Shut(s)
    ensures StaysShut(s, SettleActive(s, terminal))
  {
  }

  lemma ObserveShut(s: State, t: nat, op: TurnReducer.Op, accepted: bool)
    requires Shut(s) && IsActive(s, t)
    ensures StaysShut(s, Observe(s, t, op, accepted))
  {
  }

  lemma MessageShut(s: State, a: Action)
    requires Shut(s)
    requires a.ReadyMessage? || a.EventMessage? || a.TerminalMessage? || a.FailedMessage? || a.ClosedMessage?
    ensures StaysShut(s, MessageStep(s, a))
  {
    SettleShut(s, true);
    if a.EventMessage? && s.active.Some? && IsActive(s, s.active.value) {
      ObserveShut(s, s.active.value, TurnReducer.Observe(a.at, a.event), a.accepted);
    }
    if !a.ClosedMessage? {
      SettleShut(FirstError(s, a.e), false);
    }
  }

  lemma CleanupShut(s: State, a: Action)
    requires Shut(s) && OfCleanup(a)
    ensures StaysShut(s, CleanupStep(s, a))
  {
    if a.Stopped? {
      SettleShut(s.(hard := true), false);
    }
  }

  lemma ActivityShut(s: State, a: Action)
    requires Shut(s) && (a.BeginActivity? || a.Arm? || a.TimerFires?)
    ensures StaysShut(s, ActivityStep(s, a))
  {
  }

  lemma WrittenShut(s: State, t: nat, ok: bool, e: Error)
    requires Shut(s)
    ensures StaysShut(s, WrittenStep(s, t, ok, e))
  {
  }

  lemma ExitShut(s: State, e: Error)
    requires Shut(s)
    ensures StaysShut(s, Next(s, Exit(e)))
  {
    SettleShut((if s.phase.Cleaning? || s.phase.Closed? then s else FirstError(s, e)).(phase := Closed), false);
  }

  lemma ShutNext(s: State, a: Action)
    requires Shut(s)
    ensures StaysShut(s, Next(s, a))
  {
    if a.ReadyMessage? || a.EventMessage? || a.TerminalMessage? || a.FailedMessage? || a.ClosedMessage? {
      MessageShut(s, a);
    } else if OfCleanup(a) {
      CleanupShut(s, a);
    } else if a.BeginActivity? || a.Arm? || a.TimerFires? {
      ActivityShut(s, a);
    } else if a.Written? {
      WrittenShut(s, a.t, a.ok, a.e);
    } else if a.Exit? {
      ExitShut(s, a.e);
    } else if a.Fault? {
      SettleShut(FirstError(s, a.e), false);
    }
  }

  lemma {:induction false} ShutExec(s: State, run: seq<Action>)
    requires Shut(s)
    ensures StaysShut(s, Exec(s, run))
    decreases |run|
  {
    if run != [] {
      ShutNext(s, run[0]);
      ShutExec(Next(s, run[0]), run[1..]);
    }
  }

  predicate ActiveWithoutPolicy(s: State) {
    s.active.Some? && s.active.value < |s.turns| && s.turns[s.active.value].policy.None?
  }

  ghost predicate ClaimPossible(s: State) {
    exists run :: |Exec(s, run).turns| > |s.turns|
  }

  /** The worker reports `closed` early; the policy and the settlement then lead back to `ready`. */
  lemma ReopenedByClosedMessage(s: State)
    requires Inv(s) && !s.cleanup.NotRun? && s.phase.Cleaning?
    requires s.active.Some? && s.turns[s.active.value].policy.None?
    ensures ClaimPossible(s)
  {
    var t := s.active.value;
    var run := [ClosedMessage, Request(t, Operator), Fault(0), Claim(0)];
    var s1 := Next(s, ClosedMessage);
    var s2 := Next(s1, Request(t, Operator));
    assert s2.phase.Cancelling? && IsActive(s2, t);
    var s3 := Next(s2, Fault(0));
    assert s3.phase.Ready? && s3.active.None?;
    var s4 := Next(s3, Claim(0));
    assert |s4.turns| == |s.turns| + 1;
    assert run[1..] == [Request(t, Operator), Fault(0), Claim(0)];
    assert run[1..][1..] == [Fault(0), Claim(0)];
    assert [Fault(0), Claim(0)][1..] == [Claim(0)];
    assert [Claim(0)][1..] == [];
    assert Exec(s3, [Claim(0)]) == Exec(s4, []);
    assert Exec(s2, [Fault(0), Claim(0)]) == Exec(s3, [Claim(0)]);
    assert Exec(s1, run[1..]) == Exec(s2, run[1..][1..]);
    assert Exec(s, run) == Exec(s1, run[1..]);
  }

  /**
   * A capsule whose cleanup begins accepts no further Turn, except if a Turn without a policy is
   * active at that moment: then a `closed` message followed by a policy reopens it.
   */
  lemma NoTurnAfterCleanup(run: seq<Action>)
    requires Exec(INIT, run).cleanup.NotRun?
    ensures ClaimPossible(Next(Exec(INIT, run), StartCleanup)) <==> ActiveWithoutPolicy(Exec(INIT, run))
  {
    InvInit();
    InvExec(INIT, run);
    var s := Exec(INIT, run);
    var n := Next(s, StartCleanup);
    InvNext(s, StartCleanup);
    if s.active.Some? && s.turns[s.active.value].policy.None? {
      ReopenedByClosedMessage(n);
    } else {
      forall more: seq<Action>
        ensures |Exec(n, more).turns| == |n.turns|
      {
        ShutExec(n, more);
      }
    }
  }

  /** A cleanup that began without such a Turn, and could write its last manifest, closes the capsule for good. */
  lemma ClosedForGood(run: seq<Action>, during: seq<Action>, after: seq<Action>)
    requires Exec(INIT, run).cleanup.NotRun? && !ActiveWithoutPolicy(Exec(INIT, run))
    requires Exec(Next(Exec(INIT, run), StartCleanup), during).cleanup.Persisting?
    ensures var m := Exec(Next(Exec(INIT, run), StartCleanup), during);
            var n := Exec(Next(m, Persisted(true)), after);
            n.phase.Closed? && n.cleanup.Over? && |n.turns| == |Exec(INIT, run).turns|
  {
    InvInit();
    InvExec(INIT, run);
    var s := Next(Exec(INIT, run), StartCleanup);
    ShutExec(s, during);
    var m := Exec(s, during);
    ShutNext(m, Persisted(true));
    ShutExec(Next(m, Persisted(true)), after);
  }

  // ---------------------------------------------------------------------------
  // The end of the cleanup
  // ---------------------------------------------------------------------------

  /** The write that the cleanup waits for is under way. */
  predicate StageOk(s: State) {
    s.cleanup.LastWrite? ==> s.cleanup.turn < |s.turns| && s.turns[s.cleanup.turn].pending.Some?
  }

  /** No write is forgotten, and the cleanup stays where it is. */
  predicate KeepsPending(s: State, n: State) {
    n.cleanup == s.cleanup && |s.turns| <= |n.turns|
    && forall t | 0 <= t < |s.turns| && s.turns[t].pending.Some? :: n.turns[t].pending.Some?
  }

  lemma SettlePending(s: State, terminal: bool)
    requires Inv(s)
    ensures KeepsPending(s, SettleActive(s, terminal))
    ensures s.active.Some? && !s.phase.Cleaning? && !s.phase.Closed? ==>
              SettleActive(s, terminal).turns[s.active.value].pending.Some?
  {
    if s.active.Some? {
      assert TurnOk(s, s.active.value);
    }
  }

  lemma MessagePending(s: State, a: Action)
    requires Inv(s)
    requires a.ReadyMessage? || a.EventMessage? || a.TerminalMessage? || a.FailedMessage? || a.ClosedMessage?
    ensures KeepsPending(s, MessageStep(s, a))
  {
    SettlePending(s, true);
    if !a.ClosedMessage? {
      OutsideKeeps(s, FirstError(s, a.e));
      SettlePending(FirstError(s, a.e), false);
    }
    if a.EventMessage? && s.active.Some? {
      ObservePending(s, s.active.value, TurnReducer.Observe(a.at, a.event), a.accepted);
    }
  }

  lemma ObservePending(s: State, t: nat, op: TurnReducer.Op, accepted: bool)
    requires t < |s.turns|
    ensures KeepsPending(s, Observe(s, t, op, accepted))
  {
  }

  lemma OthersPending(s: State, a: Action)
    requires Inv(s) && !OfCleanup(a) && !a.Written?
    ensures KeepsPending(s, Next(s, a))
  {
    if a.ReadyMessage? || a.EventMessage? || a.TerminalMessage? || a.FailedMessage? || a.ClosedMessage? {
      MessagePending(s, a);
    } else if a.Fault? {
      OutsideKeeps(s, FirstError(s, a.e));
      SettlePending(FirstError(s, a.e), false);
    } else if a.Exit? {
      var n := (if s.phase.Cleaning? || s.phase.Closed? then s else FirstError(s, a.e)).(phase := Closed);
      OutsideKeeps(s, n);
      SettlePending(n, false);
    }
  }

  lemma StageNext(s: State, a: Action)
    requires Inv(s) && StageOk(s)
    ensures StageOk(Next(s, a))
  {
    if a.Stopped? {
      OutsideKeeps(s, s.(hard := true));
      SettlePending(s.(hard := true), false);
    } else if !OfCleanup(a) && !a.Written? {
      OthersPending(s, a);
    }
  }

  lemma {:induction false} StageExec(s: State, run: seq<Action>)
    requires Inv(s) && StageOk(s)
    ensures StageOk(Exec(s, run))
    decreases |run|
  {
    if run != [] {
      StageNext(s, run[0]);
      InvNext(s, run[0]);
      StageExec(Next(s, run[0]), run[1..]);
    }
  }

  /** A cleanup that waits for itself does so for good. */
  lemma {:induction false} StuckStays(s: State, run: seq<Action>)
    requires Inv(s) && s.cleanup.Stuck?
    ensures Exec(s, run).cleanup.Stuck?
    decreases |run|
  {
    if run != [] {
      InvNext(s, run[0]);
      if !OfCleanup(run[0]) && !run[0].Written? {
        OthersPending(s, run[0]);
      }
      StuckStays(Next(s, run[0]), run[1..]);
    }
  }

  function StepsLeft(c: Cleanup): nat {
    match c
    case NotRun => 7 case Announcing => 6 case Saving(_) => 5 case Sending(_) => 4 case Stopping => 3
    case LastWrite(_) => 2 case Persisting => 1 case Over => 0 case Stuck => 0
  }

  /** What the cleanup waits for, ending well. */
  function Onward(c: Cleanup): Action {
    match c
    case NotRun => StartCleanup
    case Announcing => Announced(Operator)
    case Saving(_) => Saved(true, 0)
    case Sending(_) => Sent(true, 0)
    case Stopping => Stopped
    case LastWrite(t) => Written(t, true, 0)
    case _ => Persisted(true)
  }

  lemma OnwardMoves(s: State)
    requires Inv(s) && StageOk(s) && !s.cleanup.Over? && !s.cleanup.Stuck?
    ensures var n := Next(s, Onward(s.cleanup)); !n.cleanup.Stuck? && StepsLeft(n.cleanup) < StepsLeft(s.cleanup)
  {
    match s.cleanup {
      case NotRun =>
      case Announcing =>
      case Saving(_) =>
      case Sending(_) =>
      case Stopping =>
      case LastWrite(t) => assert WrittenStep(s, t, true, 0).cleanup == Persisting;
      case Persisting =>
    }
  }

  lemma {:induction false} FinishCleanup(s: State) returns (run: seq<Action>)
    requires Inv(s) && StageOk(s) && !s.cleanup.Stuck?
    ensures Exec(s, run).cleanup.Over?
    decreases StepsLeft(s.cleanup)
  {
    if s.cleanup.Over? {
      run := [];
    } else {
      var a := Onward(s.cleanup);
      OnwardMoves(s);
      InvNext(s, a);
      StageNext(s, a);
      var rest := FinishCleanup(Next(s, a));
      run := [a] + rest;
      assert run[0] == a && run[1..] == rest;
    }
  }

  ghost predicate CleanupCanEnd(s: State) {
    exists run :: Exec(s, run).cleanup.Over?
  }

  /** In every reachable state the cleanup can end, unless it waits for itself. */
  lemma CleanupEnds(run: seq<Action>)
    ensures CleanupCanEnd(Exec(INIT, run)) <==> !Exec(INIT, run).cleanup.Stuck?
  {
    InvInit();
    InvExec(INIT, run);
    StageExec(INIT, run);
    var s := Exec(INIT, run);
    if s.cleanup.Stuck? {
      forall more ensures !Exec(s, more).cleanup.Over? {
        StuckStays(s, more);
      }
    } else {
      var more := FinishCleanup(s);
    }
  }

  ghost predicate CleanupCanStick(s: State) {
    exists run :: Exec(s, run).cleanup.Stuck?
  }

  /** The worker cannot be told of the cancellation that the cleanup itself asks for. */
  lemma CancellationSticks(s: State)
    requires Inv(s) && s.cleanup.Announcing? && s.phase.Cleaning? && ActiveWithoutPolicy(s)
    ensures CleanupCanStick(s)
  {
    var n := Next(s, Announced(Operator));
    assert n.cleanup.Sending?;
    var run := [Announced(Operator), Sent(false, 0)];
    assert run[1..] == [Sent(false, 0)] && run[1..][1..] == [];
    assert Exec(n, run[1..]) == Exec(Next(n, Sent(false, 0)), run[1..][1..]);
    assert Exec(s, run) == Exec(n, run[1..]);
  }

  /**
   * A cleanup can come to wait for itself if and only if a Turn without a policy is active when it
   * begins: then it asks for the cancellation of that Turn, and a failure of that ends in the cleanup.
   */
  lemma CleanupWaitsForItself(run: seq<Action>)
    requires Exec(INIT, run).cleanup.NotRun?
    ensures CleanupCanStick(Next(Exec(INIT, run), StartCleanup)) <==> ActiveWithoutPolicy(Exec(INIT, run))
  {
    InvInit();
    InvExec(INIT, run);
    var s := Exec(INIT, run);
    var n := Next(s, StartCleanup);
    InvNext(s, StartCleanup);
    if ActiveWithoutPolicy(s) {
      CancellationSticks(n);
    } else {
      forall more ensures !Exec(n, more).cleanup.Stuck? {
        ShutExec(n, more);
      }
    }
  }

  /** Such a Turn is active after two steps. */
  lemma ClaimedWithoutPolicy()
    ensures var s := Exec(INIT, [ReadyMessage(0), Claim(0)]);
            && s.cleanup.NotRun? && ActiveWithoutPolicy(s)
            && ClaimPossible(Next(s, StartCleanup)) && CleanupCanStick(Next(s, StartCleanup))
  {
    var run := [ReadyMessage(0), Claim(0)];
    var ready := Next(INIT, ReadyMessage(0));
    assert run[1..] == [Claim(0)] && run[1..][1..] == [];
    assert Exec(INIT, run) == Exec(ready, run[1..]);
    assert Exec(ready, run[1..]) == Exec(Next(ready, Claim(0)), run[1..][1..]);
    NoTurnAfterCleanup(run);
    CleanupWaitsForItself(run);
  }

  // ---------------------------------------------------------------------------
  // The capsule
  // ---------------------------------------------------------------------------

  class Capsule {
    var phase: Phase
    var active: Option<nat>
    var turns: seq<Turn>
    var timers: set<(nat, Silence)>
    var error: Option<Error>
    var hard: bool
    var cleanup: Cleanup

    constructor ()
      ensures St() == INIT
    {
      phase, active, turns, timers, error, hard, cleanup := Opening, None, [], {}, None, false, NotRun;
    }

    ghost function St(): State
      reads this
    {
      State(phase, active, turns, timers, error, hard, cleanup)
    }

    /** The synchronous claim in `runCapsuleTurn`. */
    method ClaimTurn(id: TurnId) returns (claimed: Option<nat>)
      modifies this
      ensures St() == Next(old(St()), Claim(id))
      ensures claimed.Some? ==> old(active).None? && active == claimed && IsActive(St(), claimed.value)
      ensures claimed.None? ==> St() == old(St())
    {
      if !phase.Ready? || active.Some? {
        return None;
      }
      claimed := Some(|turns|);
      turns := turns + [Turn(id, 0, [], [], None, None, None, 0, false, None, [])];
      active := claimed;
      phase := Running;
    }

    /** `requestPolicy` up to its manifest write. */
    method RecordPolicy(t: nat, policy: Policy) returns (recorded: bool)
      modifies this
      ensures St() == RequestPolicy(old(St()), t, policy)
      ensures recorded ==> t < |turns| && turns[t].policy == Some(policy)
    {
      if active != Some(t) || t >= |turns| || turns[t].terminal || turns[t].policy.Some? {
        return false;
      }
      turns := turns[t := turns[t].(policy := Some(policy))];
      if !phase.Cleaning? {
        phase := Cancelling;
      }
      return true;
    }

    /** `recordActivity` for the active Turn; the silence is the object a timer may be armed for. */
    method StartSilence(t: nat) returns (silence: Option<Silence>)
      requires t < |turns| && IsActive(St(), t)
      modifies this`turns
      ensures turns == old(turns)[t := RecordActivity(old(turns)[t])]
      ensures silence.Some? <==> old(turns)[t].policy.None?
      ensures silence.Some? ==> turns[t].silence == silence
    {
      if turns[t].policy.Some? {
        return None;
      }
      silence := Some(Silence(turns[t].silences, turns[t].sequence));
      turns := turns[t := turns[t].(silence := silence, silences := turns[t].silences + 1)];
    }

    /** What a timer of `scheduleActivity` does when its time is over. */
    method FireTimer(t: nat, silence: Silence) returns (recorded: bool)
      requires Inv(St()) && (t, silence) in timers
      modifies this
      ensures St() == Next(old(St()), TimerFires(t, silence)) && Inv(St())
      ensures recorded ==> t < |old(turns)| && old(turns)[t].sequence == silence.since
    {
      ActivityKeeps(St(), TimerFires(t, silence));
      assert TurnOk(St(), t) && TimerOk(St(), t, silence);
      if active != Some(t) || turns[t].terminal || turns[t].policy.Some? {
        return false;
      }
      if turns[t].silence.None? || turns[t].silence.value.id != silence.id {
        return false;
      }
      recorded := RecordPolicy(t, Inactivity(silence.since));
    }

    /** `settleActive` up to its manifest write. */
    method Settle(terminal: bool)
      requires Inv(St())
      modifies this
      ensures St() == SettleActive(old(St()), terminal) && Inv(St()) && active.None?
    {
      SettleKeeps(St(), terminal);
      if active.None? {
        return;
      }
      var t := active.value;
      var turn := turns[t].(terminal := true);
      var reduced := TurnReducer.After(turn.trace);
      var resolution := Settlement(reduced.count, TurnReducer.FinalResponse(reduced), terminal, turn.policy,
        turn.rejected.Some?, hard, if terminal then None else error);
      active := None;
      if phase.Cleaning? || phase.Closed? {
        turns := turns[t := turn.(settled := turn.settled + [resolution])];
        return;
      }
      phase := Ready;
      turns := turns[t := turn.(pending := Some(resolution))];
    }

    method RaiseFault(e: Error)
      requires Inv(St())
      modifies this
      ensures St() == FaultCapsule(old(St()), e) && Inv(St())
    {
      OutsideKeeps(St(), FirstError(St(), e));
      if error.None? {
        error := Some(e);
      }
      Settle(false);
    }

    /** Numbering, reducing and taking an event as a sign of life, and then the sink. */
    method TakeEvent(t: nat, op: TurnReducer.Op, accepted: bool)
      requires IsActive(St(), t)
      modifies this
      ensures St() == Observe(old(St()), t, op, accepted)
    {
      var sequence := turns[t].sequence;
      turns := turns[t := turns[t].(sequence := sequence + 1, trace := turns[t].trace + [op])];
      var silence := StartSilence(t);
      if turns[t].rejected.Some? {
        return;
      }
      turns := turns[t := turns[t].(seen := turns[t].seen + [sequence])];
      if !accepted {
        turns := turns[t := turns[t].(rejected := Some(sequence))];
        var recorded := RecordPolicy(t, Asked(EventSink));
      }
    }

    /** The part of `onChildMessage` for an event; `accepted` is what the sink answers if it is asked. */
    method OnEvent(id: TurnId, at: TurnReducer.Time, event: TurnReducer.Event, accepted: bool, e: Error)
      requires Inv(St())
      modifies this
      ensures St() == Next(old(St()), EventMessage(id, at, event, accepted, e)) && Inv(St())
    {
      InvNext(St(), EventMessage(id, at, event, accepted, e));
      if active.None? || turns[active.value].id != id {
        RaiseFault(e);
        return;
      }
      TakeEvent(active.value, TurnReducer.Observe(at, event), accepted);
    }
  }
}
