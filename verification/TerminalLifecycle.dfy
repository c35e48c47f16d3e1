/**
 * The lifecycle of managed terminals (packages/acp/src/reverse-rpc.ts): any number of
 * `createTerminal`, `releaseTerminal` and `killTerminal` calls interleaved with the one
 * shared run of `closeAll`.
 *
 * A create call waits at a one-permit gate, forks a fiber of its own and joins it.  The
 * caller may be interrupted at any point; its permit is then free again while the fiber
 * goes on, so that several creates can be under way and one can outlive its caller.
 * Every wait of the source is a step of its own, and whatever it depends on is read
 * when the step is taken.
 */
module TerminalLifecycle {

  type Id = nat

  /** A `createTerminal` call: queued at the gate, holding the permit, or joining its fiber under it. */
  datatype Caller = Queued | Holding | Joining | Gone

  /** The fiber of one create call in `terminalCreates`; its terminal carries the same id. */
  datatype Fiber = Started | Admitted | Opened | Published | Refused

  /** The cached `terminate` effect of a terminal. */
  datatype Terminate = Unused | Running | Settled(ok: bool)

  datatype Terminal = Terminal(released: bool, terminate: Terminate, scopeClosed: bool) {
    predicate Cleaned() {
      terminate.Settled? && scopeClosed
    }
  }

  datatype Release =
    | Begun(terminal: Id) | Marked(terminal: Id) | Closing(terminal: Id) | Closed(terminal: Id) | Ended

  datatype Gate = Free | HeldBy(caller: Id) | HeldByCloser

  /** One branch of `closeAll`: before, inside and after `closeTerminal`, and after the deletion. */
  datatype Branch = Todo | Terminating | ScopeClosed | Deleted

  datatype Closer =
    | NotAsked | AtGate | InGate | AwaitingCreates | CreatesDone
    | ClosingTerminals(branches: map<Id, Branch>)
    | Finished(snapshot: set<Id>, failed: bool)

  datatype State = State(
    closing: bool,
    gate: Gate,
    callers: map<Id, Caller>,
    fibers: map<Id, Fiber>,
    terminals: map<Id, Terminal>,
    table: set<Id>,
    releases: map<Id, Release>,
    closer: Closer)

  const INIT := State(false, Free, map[], map[], map[], {}, map[], NotAsked)

  datatype Action =
    | Call(c: Id) | TakePermit(c: Id) | Fork(c: Id) | Join(c: Id) | Interrupt(c: Id)
    | Begin(f: Id, admitted: bool) | Spawn(f: Id, ok: bool) | Publish(f: Id)
    | AskRelease(r: Id, t: Id, admitted: bool) | Require(r: Id) | StartClose(r: Id) | CloseScope(r: Id)
    | Delete(r: Id) | InterruptRelease(r: Id)
    | Kill(t: Id, admitted: bool) | Terminated(t: Id, ok: bool)
    | AskClose | EnterGate | LeaveGate | SeeEmpty | Snapshot
    | BranchClose(t: Id) | BranchScope(t: Id) | BranchDelete(t: Id) | FinishClose

  predicate At<T(==)>(m: map<Id, T>, i: Id, v: T) {
    i in m && m[i] == v
  }

  predicate OfCaller(a: Action) {
    a.Call? || a.TakePermit? || a.Fork? || a.Join? || a.Interrupt?
  }

  predicate OfFiber(a: Action) {
    a.Begin? || a.Spawn? || a.Publish?
  }

  predicate OfRelease(a: Action) {
    a.AskRelease? || a.Require? || a.StartClose? || a.CloseScope? || a.Delete? || a.InterruptRelease?
  }

  predicate OfTerminate(a: Action) {
    a.Kill? || a.Terminated?
  }

  predicate OfCloser(a: Action) {
    a.AskClose? || a.EnterGate? || a.LeaveGate? || a.SeeEmpty? || a.Snapshot?
  }

  predicate OfBranch(a: Action) {
    a.BranchClose? || a.BranchScope? || a.BranchDelete? || a.FinishClose?
  }

  // ---------------------------------------------------------------------------
  // The steps
  // ---------------------------------------------------------------------------

  /** `createTerminal`: the check before the gate, the gate, the fork and the join. */
  function CallerStep(s: State, a: Action): State
    requires OfCaller(a)
  {
    var c := a.c;
    if a.Call? then
      if c in s.callers then s
      else s.(callers := s.callers[c := if s.closing then Gone else Queued])
    else if c !in s.callers then s
    else if a.TakePermit? then
      if s.callers[c].Queued? && s.gate.Free? then s.(callers := s.callers[c := Holding], gate := HeldBy(c)) else s
    else if a.Fork? then
      if s.callers[c].Holding? then s.(callers := s.callers[c := Joining], fibers := s.fibers[c := Started]) else s
    else if a.Join? then
      if s.callers[c].Joining? && c in s.fibers && (s.fibers[c].Published? || s.fibers[c].Refused?) then
        s.(callers := s.callers[c := Gone], gate := Free)
      else s
    else
      s.(callers := s.callers[c := Gone], gate := if s.gate == HeldBy(c) then Free else s.gate)
  }

  /** `createTerminalValue` */
  function FiberStep(s: State, a: Action): State
    requires OfFiber(a)
  {
    var f := a.f;
    if f !in s.fibers then s
    else if a.Begin? then
      if s.fibers[f].Started? then
        s.(fibers := s.fibers[f := if !s.closing && a.admitted then Admitted else Refused])
      else s
    else if a.Spawn? then
      if !s.fibers[f].Admitted? then s
      else if a.ok then
        s.(fibers := s.fibers[f := Opened], terminals := s.terminals[f := Terminal(false, Unused, false)])
      else s.(fibers := s.fibers[f := Refused])
    else if s.fibers[f].Opened? then
      s.(fibers := s.fibers[f := Published], table := s.table + {f})
    else s
  }

  function Used(t: Terminal): Terminal {
    if t.terminate.Unused? then t.(terminate := Running) else t
  }

  /** `releaseTerminal`; a failing termination leaves the table as it is. */
  function ReleaseStep(s: State, a: Action): State
    requires OfRelease(a)
  {
    var r := a.r;
    if a.AskRelease? then
      if r in s.releases then s
      else s.(releases := s.releases[r := if !s.closing && a.admitted then Begun(a.t) else Ended])
    else if r !in s.releases then s
    else match s.releases[r]
      case Begun(t) =>
        if a.InterruptRelease? || (a.Require? && (t !in s.table || t !in s.terminals)) then
          s.(releases := s.releases[r := Ended])
        else if a.Require? then
          s.(releases := s.releases[r := Marked(t)],
             terminals := s.terminals[t := s.terminals[t].(released := true)])
        else s
      case Marked(t) =>
        if a.InterruptRelease? then s.(releases := s.releases[r := Ended])
        else if a.StartClose? && t in s.terminals then
          s.(releases := s.releases[r := Closing(t)], terminals := s.terminals[t := Used(s.terminals[t])])
        else s
      case Closing(t) =>
        if a.CloseScope? && t in s.terminals && s.terminals[t].terminate.Settled? then
          s.(releases := s.releases[r := Closed(t)],
             terminals := s.terminals[t := s.terminals[t].(scopeClosed := true)])
        else s
      case Closed(t) =>
        if a.InterruptRelease? then s.(releases := s.releases[r := Ended])
        else if a.Delete? && t in s.terminals then
          s.(releases := s.releases[r := Ended],
             table := if s.terminals[t].terminate == Settled(true) then s.table - {t} else s.table)
        else s
      case Ended => s
  }

  /**
   * `killTerminal`, whose admission check may lie before the closing began, and the moment a
   * running `terminate` settles.
   */
  function TerminateStep(s: State, a: Action): State
    requires OfTerminate(a)
  {
    var t := a.t;
    if t !in s.terminals then s
    else if a.Kill? then
      if a.admitted && t in s.table then s.(terminals := s.terminals[t := Used(s.terminals[t])])
      else s
    else if s.terminals[t].terminate.Running? then
      s.(terminals := s.terminals[t := s.terminals[t].(terminate := Settled(a.ok))])
    else s
  }

  predicate Active(f: Fiber) {
    f.Started? || f.Admitted? || f.Opened?
  }

  function MarkedReleased(terminals: map<Id, Terminal>, active: set<Id>): map<Id, Terminal> {
    map t | t in terminals :: if t in active then terminals[t].(released := true) else terminals[t]
  }

  /** `closeAll` up to its snapshot of the table. */
  function CloserStep(s: State, a: Action): State
    requires OfCloser(a)
  {
    match a
    case AskClose => if s.closer.NotAsked? then s.(closing := true, closer := AtGate) else s
    case EnterGate => if s.closer.AtGate? && s.gate.Free? then s.(gate := HeldByCloser, closer := InGate) else s
    case LeaveGate => if s.closer.InGate? then s.(gate := Free, closer := AwaitingCreates) else s
    case SeeEmpty =>
      if s.closer.AwaitingCreates? && forall f | f in s.fibers :: !Active(s.fibers[f]) then
        s.(closer := CreatesDone)
      else s
    case Snapshot =>
      if s.closer.CreatesDone? then
        s.(terminals := MarkedReleased(s.terminals, s.table), closer := ClosingTerminals(map t | t in s.table :: Todo))
      else s
  }

  /** The concurrent branches of `closeAll`; a failing termination is remembered, the deletion happens anyway. */
  function BranchStep(s: State, a: Action): State
    requires OfBranch(a)
  {
    if !s.closer.ClosingTerminals? then s
    else
      var branches := s.closer.branches;
      if a.FinishClose? then
        if forall t | t in branches :: branches[t].Deleted? then
          s.(closer := Finished(branches.Keys, exists t | t in branches :: At(Failures(s), t, true)))
        else s
      else if a.t !in branches || a.t !in s.terminals then s
      else
        var t, terminal := a.t, s.terminals[a.t];
        if a.BranchClose? && branches[t].Todo? then
          s.(terminals := s.terminals[t := Used(terminal)], closer := ClosingTerminals(branches[t := Terminating]))
        else if a.BranchScope? && branches[t].Terminating? && terminal.terminate.Settled? then
          s.(terminals := s.terminals[t := terminal.(scopeClosed := true)],
             closer := ClosingTerminals(branches[t := ScopeClosed]))
        else if a.BranchDelete? && branches[t].ScopeClosed? then
          s.(table := s.table - {t}, closer := ClosingTerminals(branches[t := Deleted]))
        else s
  }

  /** Which terminals could not be terminated. */
  function Failures(s: State): map<Id, bool> {
    map t | t in s.terminals :: s.terminals[t].terminate == Settled(false)
  }

  function Next(s: State, a: Action): State {
    if OfCaller(a) then CallerStep(s, a)
    else if OfFiber(a) then FiberStep(s, a)
    else if OfRelease(a) then ReleaseStep(s, a)
    else if OfTerminate(a) then TerminateStep(s, a)
    else if OfCloser(a) then CloserStep(s, a)
    else BranchStep(s, a)
  }

  function Exec(s: State, run: seq<Action>): State
    decreases |run|
  {
    if run == [] then s else Exec(Next(s, run[0]), run[1..])
  }

  // ---------------------------------------------------------------------------
  // The invariant
  // ---------------------------------------------------------------------------

  /** No create that passed its admission check is still on its way. */
  predicate Quiet(closer: Closer) {
    closer.CreatesDone? || closer.ClosingTerminals? || closer.Finished?
  }

  /** A terminal exists exactly once its fiber has spawned it; out of the table means cleaned up. */
  ghost predicate TerminalAt(s: State, t: Id) {
    && (t in s.terminals <==> t in s.fibers && (s.fibers[t].Opened? || s.fibers[t].Published?))
    && (t in s.table ==> At(s.fibers, t, Published))
    && (At(s.fibers, t, Published) && t !in s.table ==> t in s.terminals && s.terminals[t].Cleaned())
    && (t in s.terminals && s.terminals[t].scopeClosed ==> s.terminals[t].terminate.Settled?)
    && (Quiet(s.closer) && t in s.fibers ==> s.fibers[t].Started? || s.fibers[t].Published? || s.fibers[t].Refused?)
  }

  ghost predicate ReleaseAt(s: State, r: Id) {
    r in s.releases ==>
      match s.releases[r]
      case Begun(_) => true
      case Ended => true
      case Marked(t) => t in s.terminals
      case Closing(t) => t in s.terminals && !s.terminals[t].terminate.Unused?
      case Closed(t) => t in s.terminals && s.terminals[t].Cleaned()
  }

  ghost predicate BranchAt(s: State, t: Id) {
    s.closer.ClosingTerminals? ==>
      var branches := s.closer.branches;
      && (t in s.table ==> t in branches && !branches[t].Deleted?)
      && (t in branches ==>
            && t in s.terminals && s.terminals[t].released
            && (branches[t].Terminating? ==> !s.terminals[t].terminate.Unused?)
            && (branches[t].ScopeClosed? || branches[t].Deleted? ==> s.terminals[t].Cleaned()))
  }

  ghost predicate FinishedAt(s: State, t: Id) {
    s.closer.Finished? ==>
      && t !in s.table
      && (t in s.closer.snapshot ==> t in s.terminals && s.terminals[t].Cleaned() && s.terminals[t].released)
      && (t in s.closer.snapshot && s.terminals[t].terminate == Settled(false) ==> s.closer.failed)
  }

  ghost predicate FailureKnown(s: State) {
    s.closer.Finished? && s.closer.failed ==> exists t :: t in s.closer.snapshot && At(Failures(s), t, true)
  }

  /** The one permit and the calls that run under it. */
  ghost predicate GateAt(s: State, c: Id) {
    && (s.gate == HeldBy(c) <==> c in s.callers && (s.callers[c].Holding? || s.callers[c].Joining?))
    && (c in s.callers && (s.callers[c].Queued? || s.callers[c].Holding?) ==> c !in s.fibers)
    && (c in s.fibers ==> c in s.callers && (s.callers[c].Joining? || s.callers[c].Gone?))
    && (At(s.callers, c, Joining) ==> c in s.fibers)
  }

  ghost predicate Inv(s: State) {
    && (s.closing <==> !s.closer.NotAsked?)
    && (s.gate.HeldByCloser? <==> s.closer.InGate?)
    && (forall t :: TerminalAt(s, t))
    && (forall r :: ReleaseAt(s, r))
    && (forall t :: BranchAt(s, t))
    && (forall t :: FinishedAt(s, t))
    && FailureKnown(s)
    && (forall c :: GateAt(s, c))
  }

  lemma InvInit()
    ensures Inv(INIT)
  {
  }

  /** No step takes anything back that has been reached for a terminal. */
  ghost predicate Grows(s: State, t: State) {
    forall i :: i in s.terminals ==>
      && i in t.terminals
      && (s.terminals[i].released ==> t.terminals[i].released)
      && (s.terminals[i].scopeClosed ==> t.terminals[i].scopeClosed)
      && (!s.terminals[i].terminate.Unused? ==> !t.terminals[i].terminate.Unused?)
      && (s.terminals[i].terminate.Settled? ==> t.terminals[i].terminate == s.terminals[i].terminate)
  }

  lemma CallerKeeps(s: State, a: Action)
    requires Inv(s) && OfCaller(a)
    ensures Inv(CallerStep(s, a)) && Grows(s, CallerStep(s, a))
  {
    var n := CallerStep(s, a);
    assert GateAt(s, a.c) && TerminalAt(s, a.c);
    forall c
      ensures GateAt(n, c) && TerminalAt(n, c) && BranchAt(n, c) && FinishedAt(n, c) && ReleaseAt(n, c)
    {
      assert GateAt(s, c) && TerminalAt(s, c) && BranchAt(s, c) && FinishedAt(s, c) && ReleaseAt(s, c);
    }
  }

  lemma FiberKeeps(s: State, a: Action)
    requires Inv(s) && OfFiber(a)
    ensures Inv(FiberStep(s, a)) && Grows(s, FiberStep(s, a))
  {
    var n := FiberStep(s, a);
    assert GateAt(s, a.f) && TerminalAt(s, a.f) && FinishedAt(s, a.f);
    forall c
      ensures GateAt(n, c) && TerminalAt(n, c) && BranchAt(n, c) && FinishedAt(n, c) && ReleaseAt(n, c)
    {
      assert GateAt(s, c) && TerminalAt(s, c) && BranchAt(s, c) && FinishedAt(s, c) && ReleaseAt(s, c);
    }
  }

  /** A step that only moves one terminal forward, with what the invariant asks of it. */
  lemma MoveKeeps(s: State, t: Id, moved: Terminal)
    requires Inv(s) && t in s.terminals
    requires s.terminals[t].released ==> moved.released
    requires s.terminals[t].scopeClosed ==> moved.scopeClosed
    requires !s.terminals[t].terminate.Unused? ==> !moved.terminate.Unused?
    requires s.terminals[t].terminate.Settled? ==> moved.terminate == s.terminals[t].terminate
    requires moved.scopeClosed ==> moved.terminate.Settled?
    ensures var n := s.(terminals := s.terminals[t := moved]); Inv(n) && Grows(s, n)
  {
    var n := s.(terminals := s.terminals[t := moved]);
    forall c
      ensures GateAt(n, c) && TerminalAt(n, c) && BranchAt(n, c) && FinishedAt(n, c)
    {
      assert GateAt(s, c) && TerminalAt(s, c) && BranchAt(s, c) && FinishedAt(s, c);
    }
    forall r
      ensures ReleaseAt(n, r)
    {
      assert ReleaseAt(s, r);
    }
    assert FailureKnown(n) by {
      if s.closer.Finished? && s.closer.failed {
        var f :| f in s.closer.snapshot && At(Failures(s), f, true);
        assert At(Failures(n), f, true);
      }
    }
  }

  lemma SetReleaseKeeps(s: State, r: Id, phase: Release)
    requires Inv(s)
    requires ReleaseAt(s.(releases := s.releases[r := phase]), r)
    ensures Inv(s.(releases := s.releases[r := phase]))
  {
    var n := s.(releases := s.releases[r := phase]);
    forall c
      ensures GateAt(n, c) && TerminalAt(n, c) && BranchAt(n, c) && FinishedAt(n, c) && ReleaseAt(n, c)
    {
      assert GateAt(s, c) && TerminalAt(s, c) && BranchAt(s, c) && FinishedAt(s, c) && ReleaseAt(s, c);
    }
    assert Failures(n) == Failures(s);
  }

  lemma RemoveKeeps(s: State, t: Id)
    requires Inv(s) && t in s.terminals && s.terminals[t].Cleaned()
    ensures Inv(s.(table := s.table - {t}))
  {
    var n := s.(table := s.table - {t});
    forall c
      ensures GateAt(n, c) && TerminalAt(n, c) && BranchAt(n, c) && FinishedAt(n, c) && ReleaseAt(n, c)
    {
      assert GateAt(s, c) && TerminalAt(s, c) && BranchAt(s, c) && FinishedAt(s, c) && ReleaseAt(s, c);
    }
    assert Failures(n) == Failures(s);
  }

  lemma RequireKeeps(s: State, a: Action)
    requires Inv(s) && OfRelease(a) && !a.AskRelease? && a.r in s.releases && s.releases[a.r].Begun?
    ensures Inv(ReleaseStep(s, a)) && Grows(s, ReleaseStep(s, a))
  {
    var r, t := a.r, s.releases[a.r].terminal;
    assert TerminalAt(s, t) && ReleaseAt(s, r);
    if a.Require? && t in s.table && t in s.terminals {
      var moved := s.terminals[t].(released := true);
      MoveKeeps(s, t, moved);
      SetReleaseKeeps(s.(terminals := s.terminals[t := moved]), r, Marked(t));
    } else {
      SetReleaseKeeps(s, r, Ended);
      assert s.releases[r := s.releases[r]] == s.releases;
      SetReleaseKeeps(s, r, s.releases[r]);
    }
  }

  lemma ReleaseKeeps(s: State, a: Action)
    requires Inv(s)
    requires OfRelease(a)
    ensures Inv(ReleaseStep(s, a)) && Grows(s, ReleaseStep(s, a))
  {
    var r := a.r;
    assert ReleaseAt(s, r);
    if a.AskRelease? || r !in s.releases || a.InterruptRelease? {
      var phase := if a.AskRelease? && !s.closing && a.admitted then Begun(a.t) else Ended;
      SetReleaseKeeps(s, r, phase);
    } else {
      assert s.releases[r].Ended? || TerminalAt(s, s.releases[r].terminal);
      match s.releases[r]
      case Begun(t) => RequireKeeps(s, a);
      case Marked(t) =>
        var moved := Used(s.terminals[t]);
        MoveKeeps(s, t, moved);
        SetReleaseKeeps(s.(terminals := s.terminals[t := moved]), r, Closing(t));
      case Closing(t) =>
        var moved := s.terminals[t].(scopeClosed := true);
        if moved.terminate.Settled? {
          MoveKeeps(s, t, moved);
          SetReleaseKeeps(s.(terminals := s.terminals[t := moved]), r, Closed(t));
        }
      case Closed(t) =>
        SetReleaseKeeps(s, r, Ended);
        RemoveKeeps(s.(releases := s.releases[r := Ended]), t);
      case Ended =>
    }
  }

  lemma TerminateKeeps(s: State, a: Action)
    requires Inv(s) && OfTerminate(a)
    ensures Inv(TerminateStep(s, a)) && Grows(s, TerminateStep(s, a))
  {
    var t := a.t;
    assert TerminalAt(s, t);
    if t in s.terminals {
      if a.Kill? {
        MoveKeeps(s, t, Used(s.terminals[t]));
      } else if s.terminals[t].terminate.Running? {
        MoveKeeps(s, t, s.terminals[t].(terminate := Settled(a.ok)));
      }
    }
  }

  lemma CloserKeeps(s: State, a: Action)
    requires Inv(s) && OfCloser(a)
    ensures Inv(CloserStep(s, a)) && Grows(s, CloserStep(s, a))
  {
    var n := CloserStep(s, a);
    forall c
      ensures GateAt(n, c) && TerminalAt(n, c) && BranchAt(n, c) && FinishedAt(n, c)
    {
      assert GateAt(s, c) && TerminalAt(s, c) && BranchAt(s, c) && FinishedAt(s, c);
    }
    forall r
      ensures ReleaseAt(n, r)
    {
      assert ReleaseAt(s, r);
    }
  }

  lemma SetBranchKeeps(s: State, t: Id, branch: Branch)
    requires Inv(s) && s.closer.ClosingTerminals? && t in s.closer.branches
    requires BranchAt(s.(closer := ClosingTerminals(s.closer.branches[t := branch])), t)
    ensures Inv(s.(closer := ClosingTerminals(s.closer.branches[t := branch])))
  {
    var n := s.(closer := ClosingTerminals(s.closer.branches[t := branch]));
    forall c
      ensures GateAt(n, c) && TerminalAt(n, c) && BranchAt(n, c) && FinishedAt(n, c) && ReleaseAt(n, c)
    {
      assert GateAt(s, c) && TerminalAt(s, c) && BranchAt(s, c) && FinishedAt(s, c) && ReleaseAt(s, c);
    }
  }

  lemma FinishKeeps(s: State)
    requires Inv(s) && s.closer.ClosingTerminals? && forall t | t in s.closer.branches :: s.closer.branches[t].Deleted?
    ensures Inv(BranchStep(s, FinishClose))
  {
    var n := BranchStep(s, FinishClose);
    forall c
      ensures GateAt(n, c) && TerminalAt(n, c) && BranchAt(n, c) && FinishedAt(n, c) && ReleaseAt(n, c)
    {
      assert GateAt(s, c) && TerminalAt(s, c) && BranchAt(s, c) && FinishedAt(s, c) && ReleaseAt(s, c);
      if c in s.closer.branches && s.terminals[c].terminate == Settled(false) {
        assert At(Failures(s), c, true);
      }
    }
    assert Failures(n) == Failures(s);
  }

  lemma BranchKeeps(s: State, a: Action)
    requires Inv(s) && OfBranch(a)
    ensures Inv(BranchStep(s, a)) && Grows(s, BranchStep(s, a))
  {
    if s.closer.ClosingTerminals? {
      var branches := s.closer.branches;
      if a.FinishClose? {
        if forall t | t in branches :: branches[t].Deleted? {
          FinishKeeps(s);
        }
      } else if a.t in branches && a.t in s.terminals {
        var t, terminal := a.t, s.terminals[a.t];
        assert BranchAt(s, t) && TerminalAt(s, t);
        if a.BranchClose? && branches[t].Todo? {
          MoveKeeps(s, t, Used(terminal));
          SetBranchKeeps(s.(terminals := s.terminals[t := Used(terminal)]), t, Terminating);
        } else if a.BranchScope? && branches[t].Terminating? && terminal.terminate.Settled? {
          var moved := terminal.(scopeClosed := true);
          MoveKeeps(s, t, moved);
          SetBranchKeeps(s.(terminals := s.terminals[t := moved]), t, ScopeClosed);
        } else if a.BranchDelete? && branches[t].ScopeClosed? {
          RemoveKeeps(s, t);
          SetBranchKeeps(s.(table := s.table - {t}), t, Deleted);
        }
      }
    }
  }

  lemma InvNext(s: State, a: Action)
    requires Inv(s)
    ensures Inv(Next(s, a)) && Grows(s, Next(s, a))
  {
    if OfCaller(a) {
      CallerKeeps(s, a);
    } else if OfFiber(a) {
      FiberKeeps(s, a);
    } else if OfRelease(a) {
      ReleaseKeeps(s, a);
    } else if OfTerminate(a) {
      TerminateKeeps(s, a);
    } else if OfCloser(a) {
      CloserKeeps(s, a);
    } else {
      BranchKeeps(s, a);
    }
  }

  lemma {:induction false} InvExec(s: State, run: seq<Action>)
    requires Inv(s)
    ensures Inv(Exec(s, run)) && Grows(s, Exec(s, run))
    decreases |run|
  {
    if run != [] {
      InvNext(s, run[0]);
      InvExec(Next(s, run[0]), run[1..]);
    }
  }

  lemma {:induction false} ExecAppend(s: State, x: seq<Action>, y: seq<Action>)
    ensures Exec(s, x + y) == Exec(Exec(s, x), y)
    decreases |x|
  {
    if x == [] {
      assert x + y == y;
    } else {
      assert (x + y)[1..] == x[1..] + y;
      ExecAppend(Next(s, x[0]), x[1..], y);
    }
  }

  // ---------------------------------------------------------------------------
  // Main results
  // ---------------------------------------------------------------------------

  /**
   * When `closeAll` settles, on whatever interleaving, the table is empty, every terminal that
   * was in its snapshot and every other terminal ever spawned has had its termination settled
   * and its scope closed, and the call fails exactly if a snapshot terminal did not terminate.
   */
  lemma CloseLeavesNothing(run: seq<Action>)
    requires Exec(INIT, run).closer.Finished?
    ensures var s := Exec(INIT, run);
            && s.table == {} && s.closing
            && s.closer.snapshot <= s.terminals.Keys
            && (forall t | t in s.terminals :: s.terminals[t].Cleaned())
            && (forall t | t in s.closer.snapshot :: s.terminals[t].released)
            && (s.closer.failed <==> exists t :: t in s.closer.snapshot && At(Failures(s), t, true))
  {
    InvInit();
    InvExec(INIT, run);
    var s := Exec(INIT, run);
    forall t
      ensures t !in s.table
      ensures t in s.terminals ==> s.terminals[t].Cleaned()
      ensures t in s.closer.snapshot ==> t in s.terminals && s.terminals[t].released
      ensures t in s.closer.snapshot && At(Failures(s), t, true) ==> s.closer.failed
    {
      assert TerminalAt(s, t) && FinishedAt(s, t);
    }
  }

  /** Nothing is spawned, nothing enters the table, and the snapshot is kept until it is reported. */
  ghost predicate NothingNew(s: State, n: State) {
    && Quiet(n.closer) && n.terminals.Keys == s.terminals.Keys && n.table <= s.table
    && (s.closer.ClosingTerminals? && n.closer.ClosingTerminals? ==>
          n.closer.branches.Keys == s.closer.branches.Keys)
    && (s.closer.ClosingTerminals? && n.closer.Finished? ==> n.closer.snapshot == s.closer.branches.Keys)
    && (s.closer.ClosingTerminals? ==> !n.closer.CreatesDone?)
    && (s.closer.Finished? ==> n.closer == s.closer)
  }

  lemma QuietFiber(s: State, a: Action)
    requires Inv(s) && Quiet(s.closer) && OfFiber(a)
    ensures NothingNew(s, FiberStep(s, a))
  {
    assert TerminalAt(s, a.f);
  }

  lemma QuietRelease(s: State, a: Action)
    requires Quiet(s.closer) && OfRelease(a)
    ensures NothingNew(s, ReleaseStep(s, a))
  {
  }

  lemma QuietBranch(s: State, a: Action)
    requires Quiet(s.closer) && OfBranch(a)
    ensures NothingNew(s, BranchStep(s, a))
  {
  }

  lemma QuietTerminate(s: State, a: Action)
    requires Quiet(s.closer) && OfTerminate(a)
    ensures NothingNew(s, TerminateStep(s, a))
  {
  }

  lemma QuietCloser(s: State, a: Action)
    requires Quiet(s.closer) && OfCloser(a)
    ensures NothingNew(s, CloserStep(s, a))
  {
  }

  /** From the moment the creates are seen to be done, no step spawns a terminal or forgets the snapshot. */
  lemma QuietNext(s: State, a: Action)
    requires Inv(s) && Quiet(s.closer)
    ensures NothingNew(s, Next(s, a))
  {
    if OfCaller(a) {
    } else if OfFiber(a) {
      QuietFiber(s, a);
    } else if OfRelease(a) {
      QuietRelease(s, a);
    } else if OfTerminate(a) {
      QuietTerminate(s, a);
    } else if OfCloser(a) {
      QuietCloser(s, a);
    } else {
      QuietBranch(s, a);
    }
  }

  lemma {:induction false} QuietExec(s: State, run: seq<Action>)
    requires Inv(s) && Quiet(s.closer)
    ensures var n := Exec(s, run);
            && Quiet(n.closer) && n.terminals.Keys == s.terminals.Keys && n.table <= s.table
            && (s.closer.ClosingTerminals? && n.closer.Finished? ==> n.closer.snapshot == s.closer.branches.Keys)
            && (s.closer.Finished? ==> n.closer == s.closer)
    decreases |run|
  {
    if run != [] {
      QuietNext(s, run[0]);
      InvNext(s, run[0]);
      QuietExec(Next(s, run[0]), run[1..]);
    }
  }

  /** Afterwards nothing comes back: no later call spawns a terminal or fills the table again. */
  lemma StaysClosed(run: seq<Action>, later: seq<Action>)
    requires Exec(INIT, run).closer.Finished?
    ensures var s, n := Exec(INIT, run), Exec(INIT, run + later);
            n.table == {} && n.terminals.Keys == s.terminals.Keys && n.closer == s.closer
  {
    InvInit();
    InvExec(INIT, run);
    ExecAppend(INIT, run, later);
    QuietExec(Exec(INIT, run), later);
    CloseLeavesNothing(run);
  }

  /** The snapshot whose terminals are closed is the whole table at the moment it is taken. */
  lemma SnapshotIsTable(run: seq<Action>, later: seq<Action>)
    requires Exec(INIT, run).closer.CreatesDone?
    requires Exec(INIT, run + [Snapshot] + later).closer.Finished?
    ensures Exec(INIT, run + [Snapshot] + later).closer.snapshot == Exec(INIT, run).table
  {
    var s := Exec(INIT, run);
    InvInit();
    InvExec(INIT, run);
    ExecAppend(INIT, run, [Snapshot]);
    assert [Snapshot][1..] == [];
    assert Exec(s, [Snapshot]) == Exec(Next(s, Snapshot), []);
    ExecAppend(INIT, run + [Snapshot], later);
    InvNext(s, Snapshot);
    var n := Next(s, Snapshot);
    QuietExec(n, later);
  }

  /** A `terminate` that has settled keeps its result, however many calls wait for it. */
  lemma TerminatesOnce(run: seq<Action>, later: seq<Action>, t: Id)
    requires t in Exec(INIT, run).terminals && Exec(INIT, run).terminals[t].terminate.Settled?
    ensures t in Exec(INIT, run + later).terminals
    ensures Exec(INIT, run + later).terminals[t].terminate == Exec(INIT, run).terminals[t].terminate
  {
    InvInit();
    InvExec(INIT, run);
    ExecAppend(INIT, run, later);
    InvExec(Exec(INIT, run), later);
  }

  lemma ExecSnoc(run: seq<Action>, a: Action)
    ensures Exec(INIT, run + [a]) == Next(Exec(INIT, run), a)
  {
    ExecAppend(INIT, run, [a]);
    assert [a][1..] == [];
    assert Exec(Exec(INIT, run), [a]) == Exec(Next(Exec(INIT, run), a), []);
  }

  /** Closing has begun without create call `c` and release `r`; neither gets any further. */
  predicate Late(s: State, c: Id, r: Id) {
    && s.closing && c !in s.fibers
    && (c in s.callers ==> s.callers[c].Gone?)
    && (r in s.releases ==> s.releases[r].Ended?)
  }

  /** An admitted kill of a terminal in the table, the release of the terminal, or its branch of `closeAll`. */
  predicate Asks(s: State, a: Action, t: Id) {
    || (a.Kill? && a.t == t && a.admitted && t in s.table)
    || (a.StartClose? && At(s.releases, a.r, Marked(t)))
    || (a.BranchClose? && a.t == t && s.closer.ClosingTerminals? && At(s.closer.branches, t, Todo))
  }

  predicate Untouched(s: State, t: Id) {
    t in s.terminals ==> s.terminals[t].terminate.Unused?
  }

  predicate BeforeBranches(closer: Closer) {
    !closer.ClosingTerminals? && !closer.Finished?
  }

  /** Only a terminal that was terminated is forgotten before `closeAll` takes the rest. */
  predicate ForgottenAt(s: State, t: Id) {
    BeforeBranches(s.closer) && At(s.fibers, t, Published) && t !in s.table ==>
      t in s.terminals && s.terminals[t].terminate == Settled(true)
  }

  predicate Forgotten(s: State, t: Id) {
    At(s.fibers, t, Published) && t !in s.table
  }

  /** A release that has found its terminal is one of a terminal that was published. */
  predicate ReleasesPublished(s: State, r: Id) {
    r in s.releases ==>
      match s.releases[r]
      case Begun(_) | Ended => true
      case Marked(t) => At(s.fibers, t, Published)
      case Closing(t) => At(s.fibers, t, Published)
      case Closed(t) => At(s.fibers, t, Published)
  }

  /** What a step makes of the properties above. */
  predicate Carried(s: State, a: Action, n: State, t: Id, r: Id, c: Id) {
    && (Late(s, c, r) ==> Late(n, c, r))
    && (Untouched(s, t) && !Asks(s, a, t) ==> Untouched(n, t))
    && (ForgottenAt(s, t) ==> ForgottenAt(n, t))
    && (Forgotten(s, t) ==> Forgotten(n, t))
    && (ReleasesPublished(s, r) ==> ReleasesPublished(n, r))
  }

  lemma CallerCarries(s: State, a: Action, t: Id, r: Id, c: Id)
    requires OfCaller(a) && GateAt(s, a.c) && GateAt(s, t) && TerminalAt(s, t)
    ensures Carried(s, a, CallerStep(s, a), t, r, c)
  {
  }

  lemma FiberCarries(s: State, a: Action, t: Id, r: Id, c: Id)
    requires OfFiber(a) && GateAt(s, t) && TerminalAt(s, t)
    ensures Carried(s, a, FiberStep(s, a), t, r, c)
  {
  }

  lemma ReleaseCarries(s: State, a: Action, t: Id, r: Id, c: Id)
    requires OfRelease(a) && GateAt(s, t) && TerminalAt(s, t) && ReleaseAt(s, a.r) && forall u :: TerminalAt(s, u)
    ensures Carried(s, a, ReleaseStep(s, a), t, r, c)
  {
    if a.r in s.releases && s.releases[a.r].Begun? {
      assert TerminalAt(s, s.releases[a.r].terminal);
    }
  }

  lemma TerminateCarries(s: State, a: Action, t: Id, r: Id, c: Id)
    requires OfTerminate(a) && GateAt(s, t) && TerminalAt(s, t)
    ensures Carried(s, a, TerminateStep(s, a), t, r, c)
  {
  }

  lemma CloserCarries(s: State, a: Action, t: Id, r: Id, c: Id)
    requires OfCloser(a) && GateAt(s, t) && TerminalAt(s, t)
    ensures Carried(s, a, CloserStep(s, a), t, r, c)
  {
  }

  lemma BranchCarries(s: State, a: Action, t: Id, r: Id, c: Id)
    requires OfBranch(a) && GateAt(s, t) && TerminalAt(s, t)
    ensures Carried(s, a, BranchStep(s, a), t, r, c)
  {
  }

  lemma StepCarries(s: State, a: Action, t: Id, r: Id, c: Id)
    requires Inv(s)
    ensures Carried(s, a, Next(s, a), t, r, c)
  {
    assert GateAt(s, t) && TerminalAt(s, t);
    if OfCaller(a) {
      assert GateAt(s, a.c);
      CallerCarries(s, a, t, r, c);
    } else if OfFiber(a) {
      FiberCarries(s, a, t, r, c);
    } else if OfRelease(a) {
      assert ReleaseAt(s, a.r);
      ReleaseCarries(s, a, t, r, c);
    } else if OfTerminate(a) {
      TerminateCarries(s, a, t, r, c);
    } else if OfCloser(a) {
      CloserCarries(s, a, t, r, c);
    } else {
      BranchCarries(s, a, t, r, c);
    }
  }

  lemma {:induction false} LateExec(s: State, run: seq<Action>, c: Id, r: Id)
    requires Inv(s) && Late(s, c, r)
    ensures Late(Exec(s, run), c, r)
    decreases |run|
  {
    if run != [] {
      StepCarries(s, run[0], c, r, c);
      InvNext(s, run[0]);
      LateExec(Next(s, run[0]), run[1..], c, r);
    }
  }

  /** A call made after closing has begun starts no fiber, and releases nothing. */
  lemma LateCallsRefused(run: seq<Action>, later: seq<Action>, c: Id, r: Id)
    requires var s := Exec(INIT, run); s.closing && c !in s.callers && r !in s.releases
    ensures var n := Exec(INIT, run + later); c !in n.fibers && (r in n.releases ==> n.releases[r].Ended?)
  {
    InvInit();
    InvExec(INIT, run);
    assert GateAt(Exec(INIT, run), c);
    ExecAppend(INIT, run, later);
    LateExec(Exec(INIT, run), later, c, r);
  }

  /** No terminal is terminated unless somebody who may has asked for it. */
  lemma {:induction false} TerminationIsAsked(run: seq<Action>, t: Id) returns (k: nat)
    requires !Untouched(Exec(INIT, run), t)
    ensures k < |run| && Asks(Exec(INIT, run[..k]), run[k], t)
    decreases |run|
  {
    assert run != [];
    var n := |run| - 1;
    assert run[..n] + [run[n]] == run;
    ExecSnoc(run[..n], run[n]);
    if Untouched(Exec(INIT, run[..n]), t) {
      k := n;
      if !Asks(Exec(INIT, run[..n]), run[n], t) {
        InvInit();
        InvExec(INIT, run[..n]);
        StepCarries(Exec(INIT, run[..n]), run[n], t, t, t);
      }
    } else {
      k := TerminationIsAsked(run[..n], t);
      assert run[..n][..k] == run[..k];
    }
  }

  lemma {:induction false} ForgottenExec(s: State, run: seq<Action>, t: Id)
    requires Inv(s) && ForgottenAt(s, t)
    ensures ForgottenAt(Exec(s, run), t)
    decreases |run|
  {
    if run != [] {
      StepCarries(s, run[0], t, t, t);
      InvNext(s, run[0]);
      ForgottenExec(Next(s, run[0]), run[1..], t);
    }
  }

  lemma ForgottenWasTerminated(run: seq<Action>, t: Id)
    requires var s := Exec(INIT, run); BeforeBranches(s.closer) && At(s.fibers, t, Published) && t !in s.table
    ensures t in Exec(INIT, run).terminals && Exec(INIT, run).terminals[t].terminate == Settled(true)
  {
    InvInit();
    ForgottenExec(INIT, run, t);
  }

  lemma {:induction false} StaysForgotten(s: State, run: seq<Action>, t: Id)
    requires Inv(s) && Forgotten(s, t)
    ensures Forgotten(Exec(s, run), t)
    decreases |run|
  {
    if run != [] {
      StepCarries(s, run[0], t, t, t);
      InvNext(s, run[0]);
      StaysForgotten(Next(s, run[0]), run[1..], t);
    }
  }

  lemma {:induction false} PublishedExec(s: State, run: seq<Action>, r: Id)
    requires Inv(s) && ReleasesPublished(s, r)
    ensures ReleasesPublished(Exec(s, run), r)
    decreases |run|
  {
    if run != [] {
      StepCarries(s, run[0], r, r, r);
      InvNext(s, run[0]);
      PublishedExec(Next(s, run[0]), run[1..], r);
    }
  }

  /** A release that comes to its end after a successful termination takes the terminal out of the table for good. */
  lemma ReleasedIsForgotten(run: seq<Action>, r: Id, t: Id, later: seq<Action>)
    requires var s := Exec(INIT, run);
             At(s.releases, r, Closed(t)) && t in s.terminals && s.terminals[t].terminate == Settled(true)
    ensures t !in Exec(INIT, run + [Delete(r)] + later).table
  {
    var s := Exec(INIT, run);
    InvInit();
    InvExec(INIT, run);
    PublishedExec(INIT, run, r);
    ExecSnoc(run, Delete(r));
    InvNext(s, Delete(r));
    ExecAppend(INIT, run + [Delete(r)], later);
    StaysForgotten(Next(s, Delete(r)), later, t);
  }

  /** Of all creates under way, at most one still has its caller: the gate serialises the rest. */
  lemma CreatesSerialized(run: seq<Action>, f: Id, g: Id)
    requires var s := Exec(INIT, run);
             && f in s.fibers && g in s.fibers && Active(s.fibers[f]) && Active(s.fibers[g])
             && !At(s.callers, f, Gone) && !At(s.callers, g, Gone)
    ensures f == g
  {
    InvInit();
    InvExec(INIT, run);
    var s := Exec(INIT, run);
    assert GateAt(s, f) && GateAt(s, g);
  }

  // ---------------------------------------------------------------------------
  // Progress
  // ---------------------------------------------------------------------------

  /** The steps that only finish what is already under way: no new call, no interruption. */
  predicate Progress(a: Action) {
    !(a.Call? || a.Interrupt? || a.AskRelease? || a.InterruptRelease? || a.Kill? || a.AskClose?)
  }

  /** A run of such steps, each of which does something. */
  ghost predicate Working(s: State, run: seq<Action>)
    decreases |run|
  {
    run != [] ==> Progress(run[0]) && Next(s, run[0]) != s && Working(Next(s, run[0]), run[1..])
  }

  // How much is left to do. Every entity counts with the steps it still has to take and with those
  // of whatever its steps may bring about.

  function CallerRank(c: Caller): nat {
    match c case Queued => 10 case Holding => 9 case Joining => 1 case Gone => 0
  }

  function FiberRank(f: Fiber): nat {
    match f case Started => 7 case Admitted => 6 case Opened => 4 case _ => 0
  }

  function TerminalRank(t: Terminal): nat {
    if t.terminate.Settled? then 0 else 1
  }

  function ReleaseRank(r: Release): nat {
    match r case Begun(_) => 4 case Marked(_) => 3 case Closing(_) => 2 case Closed(_) => 1 case Ended => 0
  }

  function BranchRank(b: Branch): nat {
    match b case Todo => 3 case Terminating => 2 case ScopeClosed => 1 case Deleted => 0
  }

  function AtLeast<T>(m: map<Id, T>, rank: T -> nat, n: nat): set<Id> {
    set k | k in m && rank(m[k]) >= n
  }

  /** The sum of the ranks, each counted up to `n`. */
  function Load<T>(m: map<Id, T>, rank: T -> nat, n: nat): nat {
    if n == 0 then 0 else Load(m, rank, n - 1) + |AtLeast(m, rank, n)|
  }

  function Capped(r: nat, n: nat): nat {
    if r < n then r else n
  }

  lemma CountUpdate<T>(m: map<Id, T>, k: Id, v: T, rank: T -> nat, n: nat)
    ensures |AtLeast(m[k := v], rank, n)|
         == |AtLeast(m, rank, n)| + (if rank(v) >= n then 1 else 0) - (if k in m && rank(m[k]) >= n then 1 else 0)
  {
    var before, after := AtLeast(m, rank, n), AtLeast(m[k := v], rank, n);
    assert after - {k} == before - {k};
    assert |before - {k}| == |before| - (if k in before then 1 else 0);
    assert |after - {k}| == |after| - (if k in after then 1 else 0);
  }

  lemma {:induction false} LoadUpdate<T>(m: map<Id, T>, k: Id, v: T, rank: T -> nat, n: nat)
    ensures Load(m[k := v], rank, n)
         == Load(m, rank, n) + Capped(rank(v), n) - (if k in m then Capped(rank(m[k]), n) else 0)
  {
    if n > 0 {
      LoadUpdate(m, k, v, rank, n - 1);
      CountUpdate(m, k, v, rank, n);
    }
  }

  lemma {:induction false} LoadSame<T>(m: map<Id, T>, u: map<Id, T>, rank: T -> nat, n: nat)
    requires m.Keys == u.Keys && forall k | k in m :: rank(m[k]) == rank(u[k])
    ensures Load(m, rank, n) == Load(u, rank, n)
  {
    if n > 0 {
      LoadSame(m, u, rank, n - 1);
      assert AtLeast(m, rank, n) == AtLeast(u, rank, n);
    }
  }

  lemma {:induction false} LoadEven<T>(m: map<Id, T>, rank: T -> nat, r: nat, n: nat)
    requires n <= r && forall k | k in m :: rank(m[k]) == r
    ensures Load(m, rank, n) == n * |m.Keys|
  {
    if n > 0 {
      LoadEven(m, rank, r, n - 1);
      assert AtLeast(m, rank, n) == m.Keys;
    }
  }

  /** What `closeAll` itself has to do; until the snapshot every terminal in the table stands for a branch. */
  function CloserLoad(closer: Closer, table: set<Id>): nat {
    match closer
    case NotAsked => 6 + 3 * |table|
    case AtGate => 5 + 3 * |table|
    case InGate => 4 + 3 * |table|
    case AwaitingCreates => 3 + 3 * |table|
    case CreatesDone => 2 + 3 * |table|
    case ClosingTerminals(branches) => 1 + Load(branches, BranchRank, 3)
    case Finished(_, _) => 0
  }

  function Remaining(s: State): nat {
    Load(s.callers, CallerRank, 10) + Load(s.fibers, FiberRank, 7) + Load(s.terminals, TerminalRank, 1)
    + Load(s.releases, ReleaseRank, 4) + CloserLoad(s.closer, s.table)
  }

  lemma CallerProgress(s: State, a: Action)
    requires Inv(s) && Progress(a) && OfCaller(a) && CallerStep(s, a) != s
    ensures Remaining(CallerStep(s, a)) < Remaining(s)
  {
    var n, c := CallerStep(s, a), a.c;
    assert GateAt(s, c);
    LoadUpdate(s.callers, c, n.callers[c], CallerRank, 10);
    if a.Fork? {
      LoadUpdate(s.fibers, c, Started, FiberRank, 7);
    }
  }

  /** The table weighs no more when a terminal leaves it, and at most three more when one enters. */
  lemma TableLoad(closer: Closer, table: set<Id>, t: Id)
    ensures CloserLoad(closer, table - {t}) <= CloserLoad(closer, table)
    ensures CloserLoad(closer, table + {t}) <= CloserLoad(closer, table) + 3
  {
    assert table - {t} <= table && |table - {t}| <= |table|;
    assert table + {t} == (table - {t}) + {t};
  }

  /** The loads that a step of a fiber changes. */
  function FiberLoads(s: State): nat {
    Load(s.fibers, FiberRank, 7) + Load(s.terminals, TerminalRank, 1) + CloserLoad(s.closer, s.table)
  }

  lemma BeginProgress(s: State, a: Action)
    requires a.Begin? && FiberStep(s, a) != s
    ensures FiberLoads(FiberStep(s, a)) < FiberLoads(s)
  {
    LoadUpdate(s.fibers, a.f, FiberStep(s, a).fibers[a.f], FiberRank, 7);
  }

  lemma SpawnProgress(s: State, a: Action)
    requires Inv(s) && a.Spawn? && FiberStep(s, a) != s
    ensures FiberLoads(FiberStep(s, a)) < FiberLoads(s)
  {
    assert TerminalAt(s, a.f);
    LoadUpdate(s.fibers, a.f, FiberStep(s, a).fibers[a.f], FiberRank, 7);
    LoadUpdate(s.terminals, a.f, Terminal(false, Unused, false), TerminalRank, 1);
  }

  lemma PublishProgress(s: State, a: Action)
    requires a.Publish? && FiberStep(s, a) != s
    ensures FiberLoads(FiberStep(s, a)) < FiberLoads(s)
  {
    LoadUpdate(s.fibers, a.f, Published, FiberRank, 7);
    TableLoad(s.closer, s.table, a.f);
  }

  lemma FiberProgress(s: State, a: Action)
    requires Inv(s) && OfFiber(a) && FiberStep(s, a) != s
    ensures Remaining(FiberStep(s, a)) < Remaining(s)
  {
    if a.Begin? {
      BeginProgress(s, a);
    } else if a.Spawn? {
      SpawnProgress(s, a);
    } else {
      PublishProgress(s, a);
    }
  }

  /** Moving one terminal on never adds to what is left. */
  lemma TerminalLoad(s: State, t: Id, moved: Terminal)
    requires t in s.terminals && (s.terminals[t].terminate.Settled? ==> moved.terminate.Settled?)
    ensures Load(s.terminals[t := moved], TerminalRank, 1) <= Load(s.terminals, TerminalRank, 1)
    ensures moved.terminate.Settled? && !s.terminals[t].terminate.Settled? ==>
              Load(s.terminals[t := moved], TerminalRank, 1) < Load(s.terminals, TerminalRank, 1)
  {
    LoadUpdate(s.terminals, t, moved, TerminalRank, 1);
  }

  /** What a step of a release that does something changes. */
  lemma ReleaseMoves(s: State, a: Action)
    requires Inv(s) && Progress(a) && OfRelease(a) && ReleaseStep(s, a) != s
    ensures var n := ReleaseStep(s, a);
            && a.r in s.releases && a.r in n.releases && ReleaseRank(n.releases[a.r]) < ReleaseRank(s.releases[a.r])
            && n == s.(releases := s.releases[a.r := n.releases[a.r]], terminals := n.terminals, table := n.table)
            && var t := s.releases[a.r].terminal;
               && (n.table == s.table || n.table == s.table - {t})
               && (n.terminals == s.terminals
                   || (t in s.terminals && t in n.terminals && n.terminals == s.terminals[t := n.terminals[t]]
                       && (s.terminals[t].terminate.Settled? ==> n.terminals[t].terminate.Settled?)))
  {
    match s.releases[a.r] {
      case Begun(t) =>
      case Marked(t) =>
      case Closing(t) =>
      case Closed(t) =>
      case Ended =>
    }
  }

  lemma ReleaseProgress(s: State, a: Action)
    requires Inv(s) && Progress(a) && OfRelease(a) && ReleaseStep(s, a) != s
    ensures Remaining(ReleaseStep(s, a)) < Remaining(s)
  {
    ReleaseMoves(s, a);
    var n, t := ReleaseStep(s, a), s.releases[a.r].terminal;
    LoadUpdate(s.releases, a.r, n.releases[a.r], ReleaseRank, 4);
    TableLoad(s.closer, s.table, t);
    if n.terminals != s.terminals {
      TerminalLoad(s, t, n.terminals[t]);
    }
  }

  lemma TerminateProgress(s: State, a: Action)
    requires a.Terminated? && TerminateStep(s, a) != s
    ensures Remaining(TerminateStep(s, a)) < Remaining(s)
  {
    TerminalLoad(s, a.t, TerminateStep(s, a).terminals[a.t]);
  }

  lemma CloserProgress(s: State, a: Action)
    requires Progress(a) && OfCloser(a) && CloserStep(s, a) != s
    ensures Remaining(CloserStep(s, a)) < Remaining(s)
  {
    if a.Snapshot? {
      var n := CloserStep(s, a);
      LoadSame(s.terminals, n.terminals, TerminalRank, 1);
      LoadEven(n.closer.branches, BranchRank, 3, 3);
      assert n.closer.branches.Keys == s.table;
    }
  }

  lemma BranchProgress(s: State, a: Action)
    requires OfBranch(a) && BranchStep(s, a) != s
    ensures Remaining(BranchStep(s, a)) < Remaining(s)
  {
    if !a.FinishClose? {
      var n, t := BranchStep(s, a), a.t;
      LoadUpdate(s.closer.branches, t, n.closer.branches[t], BranchRank, 3);
      TerminalLoad(s, t, n.terminals[t]);
      assert n.terminals == s.terminals[t := n.terminals[t]];
    }
  }

  /** Every step that finishes something leaves less to be done. */
  lemma ProgressDecreases(s: State, a: Action)
    requires Inv(s) && Progress(a) && Next(s, a) != s
    ensures Remaining(Next(s, a)) < Remaining(s)
  {
    if OfCaller(a) {
      CallerProgress(s, a);
    } else if OfFiber(a) {
      FiberProgress(s, a);
    } else if OfRelease(a) {
      ReleaseProgress(s, a);
    } else if OfTerminate(a) {
      TerminateProgress(s, a);
    } else if OfCloser(a) {
      CloserProgress(s, a);
    } else {
      BranchProgress(s, a);
    }
  }

  /** A fiber that has not settled can always take its next step. */
  lemma FiberMoves(s: State, f: Id) returns (a: Action)
    requires f in s.fibers && Active(s.fibers[f])
    ensures Progress(a) && Next(s, a) != s
  {
    a := match s.fibers[f] case Started => Begin(f, false) case Admitted => Spawn(f, false) case _ => Publish(f);
    assert Next(s, a).fibers[f] != s.fibers[f];
  }

  lemma GateMoves(s: State) returns (a: Action)
    requires Inv(s) && s.closer.AtGate?
    ensures Progress(a) && Next(s, a) != s
  {
    if s.gate.Free? {
      a := EnterGate;
    } else {
      var c := s.gate.caller;
      assert GateAt(s, c);
      if s.callers[c].Holding? {
        a := Fork(c);
        assert Next(s, a).callers[c] == Joining;
      } else if Active(s.fibers[c]) {
        a := FiberMoves(s, c);
      } else {
        a := Join(c);
        assert Next(s, a).callers[c] == Gone;
      }
    }
  }

  lemma BranchMoves(s: State) returns (a: Action)
    requires Inv(s) && s.closer.ClosingTerminals?
    ensures Progress(a) && Next(s, a) != s
  {
    var branches := s.closer.branches;
    if t :| t in branches && !branches[t].Deleted? {
      a := OneBranchMoves(s, t);
    } else {
      a := FinishClose;
    }
  }

  lemma OneBranchMoves(s: State, t: Id) returns (a: Action)
    requires Inv(s) && s.closer.ClosingTerminals? && t in s.closer.branches && !s.closer.branches[t].Deleted?
    ensures Progress(a) && Next(s, a) != s
  {
    var branches := s.closer.branches;
    assert BranchAt(s, t);
    if branches[t].Terminating? && s.terminals[t].terminate.Running? {
      a := Terminated(t, true);
      assert TerminateStep(s, a).terminals[t].terminate.Settled?;
    } else {
      a := match branches[t]
        case Todo => BranchClose(t) case Terminating => BranchScope(t) case _ => BranchDelete(t);
      assert BranchStep(s, a).closer.branches[t] != branches[t];
    }
  }

  /** Until `closeAll` settles, work already begun can move it or what it waits for. */
  lemma CloseMoves(s: State) returns (a: Action)
    requires Inv(s) && !s.closer.NotAsked? && !s.closer.Finished?
    ensures Progress(a) && Next(s, a) != s
  {
    match s.closer
    case AtGate =>
      a := GateMoves(s);
    case InGate => a := LeaveGate;
    case AwaitingCreates =>
      if f :| f in s.fibers && Active(s.fibers[f]) {
        a := FiberMoves(s, f);
      } else {
        a := SeeEmpty;
      }
    case CreatesDone => a := Snapshot;
    case ClosingTerminals(_) => a := BranchMoves(s);
  }

  lemma {:induction false} WorkBounded(s: State, run: seq<Action>)
    requires Inv(s) && Working(s, run)
    ensures |run| + Remaining(Exec(s, run)) <= Remaining(s)
    decreases |run|
  {
    if run != [] {
      ProgressDecreases(s, run[0]);
      InvNext(s, run[0]);
      WorkBounded(Next(s, run[0]), run[1..]);
    }
  }

  lemma StillAsked(s: State, a: Action)
    requires !s.closer.NotAsked?
    ensures !Next(s, a).closer.NotAsked?
  {
    if OfRelease(a) {
      assert ReleaseStep(s, a).closer == s.closer;
    }
  }

  /** What is asked of `closeAll` stays asked. */
  lemma {:induction false} StaysAsked(s: State, run: seq<Action>)
    requires !s.closer.NotAsked?
    ensures !Exec(s, run).closer.NotAsked?
    decreases |run|
  {
    if run != [] {
      StillAsked(s, run[0]);
      StaysAsked(Next(s, run[0]), run[1..]);
    }
  }

  lemma {:induction false} WorkReaches(s: State) returns (run: seq<Action>)
    requires Inv(s) && !s.closer.NotAsked?
    ensures Working(s, run) && Exec(s, run).closer.Finished?
    decreases Remaining(s)
  {
    if s.closer.Finished? {
      run := [];
    } else {
      var a := CloseMoves(s);
      ProgressDecreases(s, a);
      InvNext(s, a);
      StillAsked(s, a);
      var rest := WorkReaches(Next(s, a));
      run := [a] + rest;
      assert run[0] == a && run[1..] == rest;
    }
  }

  /**
   * `closeAll` settles whatever order the work already begun is done in: once it was asked for, every
   * run of steps that finish something is no longer than `Remaining`, one that cannot be made longer
   * has `closeAll` settled, and each of them can be continued to such a run.
   */
  lemma CloseNeverBlocked(run: seq<Action>, work: seq<Action>) returns (more: seq<Action>)
    requires !Exec(INIT, run).closer.NotAsked? && Working(Exec(INIT, run), work)
    ensures var s, t := Exec(INIT, run), Exec(INIT, run + work);
            && |work| <= Remaining(s)
            && ((forall a | Progress(a) :: Next(t, a) == t) ==> t.closer.Finished?)
            && Working(t, more) && Exec(t, more).closer.Finished?
  {
    InvInit();
    InvExec(INIT, run);
    var s := Exec(INIT, run);
    WorkBounded(s, work);
    ExecAppend(INIT, run, work);
    InvExec(s, work);
    StaysAsked(s, work);
    var t := Exec(s, work);
    if !t.closer.Finished? {
      var a := CloseMoves(t);
    }
    more := WorkReaches(t);
  }

  // ---------------------------------------------------------------------------
  // The synchronous parts, as the source updates its variables
  // ---------------------------------------------------------------------------

  class ReverseRpc {
    var closing: bool
    var gate: Gate
    var callers: map<Id, Caller>
    var fibers: map<Id, Fiber>
    var terminals: map<Id, Terminal>
    var table: set<Id>
    var releases: map<Id, Release>
    var closer: Closer

    constructor ()
      ensures St() == INIT
    {
      closing, gate, callers, fibers := false, Free, map[], map[];
      terminals, table, releases, closer := map[], {}, map[], NotAsked;
    }

    ghost function St(): State
      reads this
    {
      State(closing, gate, callers, fibers, terminals, table, releases, closer)
    }

    /** `createTerminal` up to the gate. */
    method CreateTerminal(c: Id) returns (rejected: bool)
      requires c !in callers
      modifies this
      ensures St() == Next(old(St()), Call(c)) && rejected == old(closing)
    {
      if closing {
        callers := callers[c := Gone];
        return true;
      }
      callers := callers[c := Queued];
      return false;
    }

    /** `begin` in a create fiber. */
    method BeginCreate(f: Id, sessionActive: bool, permitted: bool) returns (admitted: bool)
      requires f in fibers && fibers[f].Started?
      modifies this
      ensures St() == Next(old(St()), Begin(f, sessionActive && permitted))
      ensures admitted <==> !closing && sessionActive && permitted
    {
      admitted := false;
      if !closing {
        if sessionActive {
          if permitted {
            admitted := true;
          }
        }
      }
      fibers := fibers[f := if admitted then Admitted else Refused];
    }

    /** `terminals.set` */
    method PublishTerminal(f: Id)
      requires f in fibers && fibers[f].Opened?
      modifies this
      ensures St() == Next(old(St()), Publish(f)) && f in table
    {
      table := table + {f};
      fibers := fibers[f := Published];
    }

    /** `requireTerminal` and the `released` mark of `releaseTerminal`. */
    method RequireForRelease(r: Id) returns (found: bool)
      requires r in releases && releases[r].Begun?
      modifies this
      ensures St() == Next(old(St()), Require(r))
    {
      var t := releases[r].terminal;
      if t !in table || t !in terminals {
        releases := releases[r := Ended];
        return false;
      }
      terminals := terminals[t := terminals[t].(released := true)];
      releases := releases[r := Marked(t)];
      return true;
    }

    /** The end of `releaseTerminal`: a failed termination is raised before the deletion. */
    method FinishRelease(r: Id) returns (ok: bool)
      requires r in releases && releases[r].Closed? && releases[r].terminal in terminals
      modifies this
      ensures St() == Next(old(St()), Delete(r))
      ensures if ok then table == old(table) - {old(releases)[r].terminal} else table == old(table)
    {
      var t := releases[r].terminal;
      releases := releases[r := Ended];
      if terminals[t].terminate != Settled(true) {
        return false;
      }
      table := table - {t};
      return true;
    }

    /** The snapshot of `closeAll` and its loop over the active terminals. */
    method TakeSnapshot()
      requires closer.CreatesDone? && table <= terminals.Keys
      modifies this
      ensures St() == Next(old(St()), Snapshot)
    {
      var active := table;
      var todo := active;
      while todo != {}
        invariant todo <= active && active == old(table) <= terminals.Keys
        invariant St() == old(St()).(terminals := MarkedReleased(old(terminals), active - todo))
      {
        var t :| t in todo;
        terminals := terminals[t := terminals[t].(released := true)];
        todo := todo - {t};
        assert terminals == MarkedReleased(old(terminals), active - todo);
      }
      assert active - {} == active;
      closer := ClosingTerminals(map t | t in active :: Todo);
    }
  }
}
