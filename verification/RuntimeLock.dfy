/** The shared/exclusive file lock of a workspace, over all interleavings of any number of acquisitions.

    An acquisition (a "client") has its own token, so its holder file has a path of its own; the
    exclusive file is one path for everybody.  Every file system call is one step: creating a file and
    filling it are two, and so are looking at a file (`lstat`), reading it, probing its owner and
    removing it.  What the file system and the process table may answer is the step's `Outcome`. */
module RuntimeLock {
  import opened Options

  type Client = nat

  datatype ExclusiveFile = ExclusiveFile(owner: Client, filled: bool)

  /** Which `liveLockExists(exclusive)` call a client is in. */
  datatype Site = First | Recheck | Busy

  /** The file a failed acquisition left behind. */
  datatype Leftover = Nothing | Holder | Exclusive

  datatype Pc =
    | Look(at: Site) | Reading(at: Site) | Probing(at: Site, owner: Client) | Removing(at: Site)
    | SharedCreate | SharedFill | SharedUndo(retry: bool) | SharedWait | SharedHeld
    | ExclCreate | ExclFill | ExclList | ExclScan(todo: set<Client>, live: bool)
    | ExclRead(todo: set<Client>, live: bool, entry: Client)
    | ExclDrop(todo: set<Client>, live: bool, entry: Client)
    | ExclUndo(retry: bool) | ExclWait | ExclHeld
    | Failed(left: Leftover) | Released

  /** `Fault` is an I/O error; `Alt` is a passed deadline, or a dead owner that cannot be told dead. */
  datatype Outcome = Ok | Alt | Fault

  datatype Action =
    | StartShared(c: Client)
    | StartExclusive(c: Client)
    | Step(c: Client, outcome: Outcome, pick: Client)
    | Crash(c: Client)

  /** `holders` maps the owner of a holder file to whether its content has been written. */
  datatype State = State(
    exclusive: Option<ExclusiveFile>,
    holders: map<Client, bool>,
    pcs: map<Client, Pc>,
    crashed: set<Client>)

  datatype Answer = Live | NotLive | Errored

  const INIT := State(None, map[], map[], {})

  function After(at: Site, answer: Answer): Pc {
    match (at, answer)
    case (First, NotLive) => SharedCreate
    case (First, Live) => SharedWait
    case (Recheck, NotLive) => SharedHeld
    case (Recheck, Live) => SharedUndo(true)
    case (Recheck, Errored) => SharedUndo(false)
    case (Busy, NotLive) => ExclCreate
    case (Busy, Live) => ExclWait
    case (_, Errored) => Failed(Nothing)
  }

  function Goto(s: State, c: Client, pc: Pc): State {
    s.(pcs := s.pcs[c := pc])
  }

  function Drop(s: State, c: Client): State {
    s.(holders := s.holders - {c})
  }

  /** `liveLockExists` and `lockIsLive` on the exclusive file. */
  function StepExclusiveProbe(s: State, c: Client, pc: Pc, outcome: Outcome): State
    requires pc.Look? || pc.Reading? || pc.Probing? || pc.Removing?
  {
    match pc
    case Look(at) =>
      if outcome.Fault? then Goto(s, c, After(at, Errored))
      else if s.exclusive.None? then Goto(s, c, After(at, NotLive))
      else Goto(s, c, Reading(at))
    case Reading(at) =>
      if outcome.Fault? then Goto(s, c, After(at, Live))
      else if s.exclusive.None? then Goto(s, c, Removing(at))
      else if !s.exclusive.value.filled then Goto(s, c, After(at, Live))
      else Goto(s, c, Probing(at, s.exclusive.value.owner))
    case Probing(at, owner) =>
      if owner in s.crashed && outcome.Ok? then Goto(s, c, Removing(at)) else Goto(s, c, After(at, Live))
    case Removing(at) =>
      if outcome.Fault? then Goto(s, c, After(at, Errored))
      else Goto(s.(exclusive := None), c, After(at, NotLive))
  }

  /** `openRuntimeSharedLock` and its `release`. */
  function StepShared(s: State, c: Client, pc: Pc, outcome: Outcome): State
    requires pc.SharedCreate? || pc.SharedFill? || pc.SharedUndo? || pc.SharedWait? || pc.SharedHeld?
  {
    match pc
    case SharedCreate =>
      if outcome.Fault? then Goto(s, c, Failed(Nothing))
      else if c in s.holders then Goto(s, c, Failed(Holder))
      else Goto(s.(holders := s.holders[c := false]), c, SharedFill)
    case SharedFill =>
      if outcome.Fault? then Goto(s, c, Failed(Holder))
      else Goto(if c in s.holders then s.(holders := s.holders[c := true]) else s, c, Look(Recheck))
    case SharedUndo(retry) =>
      if outcome.Fault? then Goto(s, c, Failed(Holder))
      else Goto(Drop(s, c), c, if retry then SharedWait else Failed(Nothing))
    case SharedWait => Goto(s, c, if outcome.Alt? then Failed(Nothing) else Look(First))
    case SharedHeld => if outcome.Fault? then Goto(s, c, Failed(Holder)) else Goto(Drop(s, c), c, Released)
  }

  /** Filling writes to the file that was created, also if its path leads elsewhere by now. */
  function Filled(exclusive: Option<ExclusiveFile>, c: Client): Option<ExclusiveFile> {
    if exclusive.Some? && exclusive.value.owner == c then Some(ExclusiveFile(c, true)) else exclusive
  }

  /** `collectLiveHolders`: a directory snapshot, then each entry in turn. */
  function StepScan(s: State, c: Client, pc: Pc, outcome: Outcome, pick: Client): State
    requires pc.ExclList? || pc.ExclScan? || pc.ExclRead? || pc.ExclDrop?
  {
    match pc
    case ExclList =>
      if outcome.Fault? then Goto(s, c, ExclUndo(false)) else Goto(s, c, ExclScan(s.holders.Keys, false))
    case ExclScan(todo, live) =>
      if todo == {} then Goto(s, c, if live then ExclUndo(true) else ExclHeld)
      else if pick !in todo then s
      else if outcome.Fault? then Goto(s, c, ExclUndo(false))
      else if pick !in s.holders then Goto(s, c, ExclScan(todo - {pick}, live))
      else Goto(s, c, ExclRead(todo - {pick}, live, pick))
    case ExclRead(todo, live, entry) =>
      if outcome.Fault? then Goto(s, c, ExclScan(todo, true))
      else if entry !in s.holders then Goto(s, c, ExclDrop(todo, live, entry))
      else if s.holders[entry] && entry in s.crashed && outcome.Ok? then Goto(s, c, ExclDrop(todo, live, entry))
      else Goto(s, c, ExclScan(todo, true))
    case ExclDrop(todo, live, entry) =>
      if outcome.Fault? then Goto(s, c, ExclUndo(false)) else Goto(Drop(s, entry), c, ExclScan(todo, live))
  }

  /** The rest of `openRuntimeExclusiveLock` and its `release`. */
  function StepExclusive(s: State, c: Client, pc: Pc, outcome: Outcome): State
    requires pc.ExclCreate? || pc.ExclFill? || pc.ExclUndo? || pc.ExclWait? || pc.ExclHeld?
  {
    match pc
    case ExclCreate =>
      if outcome.Fault? then Goto(s, c, Failed(Nothing))
      else if s.exclusive.Some? then Goto(s, c, Look(Busy))
      else Goto(s.(exclusive := Some(ExclusiveFile(c, false))), c, ExclFill)
    case ExclFill =>
      if outcome.Fault? then Goto(s, c, Failed(Exclusive))
      else Goto(s.(exclusive := Filled(s.exclusive, c)), c, ExclList)
    case ExclUndo(retry) =>
      if outcome.Fault? then Goto(s, c, Failed(Exclusive))
      else Goto(s.(exclusive := None), c, if retry then ExclWait else Failed(Nothing))
    case ExclWait => Goto(s, c, if outcome.Alt? then Failed(Nothing) else ExclCreate)
    case ExclHeld =>
      if outcome.Fault? then Goto(s, c, Failed(Exclusive)) else Goto(s.(exclusive := None), c, Released)
  }

  function StepClient(s: State, c: Client, outcome: Outcome, pick: Client): State
    requires c in s.pcs
  {
    var pc := s.pcs[c];
    match pc
    case Look(_) | Reading(_) | Probing(_, _) | Removing(_) => StepExclusiveProbe(s, c, pc, outcome)
    case SharedCreate | SharedFill | SharedUndo(_) | SharedWait | SharedHeld => StepShared(s, c, pc, outcome)
    case ExclList | ExclScan(_, _) | ExclRead(_, _, _) | ExclDrop(_, _, _) => StepScan(s, c, pc, outcome, pick)
    case ExclCreate | ExclFill | ExclUndo(_) | ExclWait | ExclHeld => StepExclusive(s, c, pc, outcome)
    case Failed(_) | Released => s
  }

  /** An action that does not apply leaves the state alone. */
  function Next(s: State, a: Action): State {
    match a
    case StartShared(c) => if c in s.pcs then s else Goto(s, c, Look(First))
    case StartExclusive(c) => if c in s.pcs then s else Goto(s, c, ExclCreate)
    case Step(c, outcome, pick) => if c in s.pcs && c !in s.crashed then StepClient(s, c, outcome, pick) else s
    case Crash(c) => s.(crashed := s.crashed + {c})
  }

  function Exec(s: State, run: seq<Action>): State
    decreases |run|
  {
    if run == [] then s else Exec(Next(s, run[0]), run[1..])
  }

  // ---------------------------------------------------------------- what the runs are judged by

  predicate Running(s: State, c: Client) {
    c in s.pcs && c !in s.crashed
  }

  /** From creating the exclusive file until removing it; a failed write or removal leaves it. */
  predicate ExclusiveRegion(pc: Pc) {
    pc.ExclFill? || pc.ExclList? || pc.ExclScan? || pc.ExclRead? || pc.ExclDrop? || pc.ExclUndo? || pc.ExclHeld?
    || pc == Failed(Exclusive)
  }

  /** From creating the holder file until removing it. */
  predicate HolderRegion(pc: Pc) {
    pc.SharedFill? || pc.SharedUndo? || pc.SharedHeld? || pc == Failed(Holder)
    || ((pc.Look? || pc.Reading? || pc.Probing? || pc.Removing?) && pc.at == Recheck)
  }

  /** No two live exclusive owners, and no live shared owner beside a live exclusive one. */
  ghost predicate Exclusion(s: State) {
    forall e, c :: Running(s, e) && s.pcs[e].ExclHeld? && Running(s, c) && c != e
      ==> !s.pcs[c].ExclHeld? && !s.pcs[c].SharedHeld?
  }

  /** A live client that created the exclusive file and has not removed it still owns it. */
  predicate OwnsAt(s: State, c: Client) {
    Running(s, c) && ExclusiveRegion(s.pcs[c]) ==>
      && s.exclusive.Some? && s.exclusive.value.owner == c
      && (s.pcs[c].ExclFill? ==> !s.exclusive.value.filled)
      && (!s.pcs[c].ExclFill? && !s.pcs[c].Failed? ==> s.exclusive.value.filled)
  }

  ghost predicate OwnsExclusive(s: State) {
    forall c :: OwnsAt(s, c)
  }

  /** The action does not remove the exclusive file of a live client that still relies on it. */
  predicate Clean(s: State, a: Action) {
    a.Step? && Running(s, a.c) && s.pcs[a.c].Removing? && !a.outcome.Fault? && s.exclusive.Some? ==>
      var owner := s.exclusive.value.owner; !(Running(s, owner) && ExclusiveRegion(s.pcs[owner]))
  }

  predicate CleanRun(s: State, run: seq<Action>)
    decreases |run|
  {
    run == [] || (Clean(s, run[0]) && CleanRun(Next(s, run[0]), run[1..]))
  }

  ghost predicate OwnsThroughout(s: State, run: seq<Action>)
    decreases |run|
  {
    OwnsExclusive(s) && (run == [] || OwnsThroughout(Next(s, run[0]), run[1..]))
  }

  // ---------------------------------------------------------------- the invariant

  /** The holder file of a live client means that the client still relies on it. */
  predicate NoStrayHolder(s: State, c: Client) {
    c in s.holders && c !in s.crashed ==> c in s.pcs && HolderRegion(s.pcs[c])
  }

  /** A live client's holder file is there exactly while the client is in its holder region. */
  predicate HolderAt(s: State, c: Client) {
    && (Running(s, c) && HolderRegion(s.pcs[c]) ==>
          && c in s.holders
          && (s.pcs[c].SharedFill? ==> !s.holders[c])
          && (!s.pcs[c].SharedFill? && !s.pcs[c].Failed? ==> s.holders[c]))
    && NoStrayHolder(s, c)
  }

  /** The exclusive file of a live client means that the client still relies on it. */
  predicate NoStrayExclusive(s: State) {
    s.exclusive.Some? && s.exclusive.value.owner !in s.crashed ==>
      s.exclusive.value.owner in s.pcs && ExclusiveRegion(s.pcs[s.exclusive.value.owner])
  }

  /** Whether the scan of `pc` has already accounted for a shared owner `c`. */
  predicate Accounted(pc: Pc, c: Client) {
    match pc
    case ExclScan(todo, live) => live || c in todo
    case ExclRead(todo, live, entry) => live || c in todo || c == entry
    case ExclDrop(todo, live, entry) => live || c in todo
    case ExclHeld => false
    case _ => true
  }

  predicate Listed(pc: Pc, c: Client) {
    match pc
    case ExclScan(todo, live) => c in todo
    case ExclRead(todo, live, entry) => c in todo || c == entry
    case ExclDrop(todo, live, entry) => c in todo || c == entry
    case _ => false
  }

  /** A shared owner is still to be found by every scan in progress, no listed client is about to
      create its holder file again, and a file about to be dropped has no live client behind it. */
  predicate ScanPair(s: State, e: Client, c: Client) {
    Running(s, e) && Running(s, c) ==>
      && (s.pcs[c].SharedHeld? ==> Accounted(s.pcs[e], c))
      && (Listed(s.pcs[e], c) ==> !s.pcs[c].SharedCreate?)
      && (s.pcs[e].ExclDrop? && s.pcs[e].entry == c ==> !HolderRegion(s.pcs[c]))
  }

  ghost predicate Inv(s: State) {
    && OwnsExclusive(s)
    && (forall c :: HolderAt(s, c))
    && NoStrayExclusive(s)
    && (forall e, c :: ScanPair(s, e, c))
  }

  predicate ProbePc(pc: Pc) {
    pc.Look? || pc.Reading? || pc.Probing? || pc.Removing?
  }

  /** With a live client in the exclusive region a probe cannot answer "not live" by a clean step. */
  lemma NoPassBesideRegion(s: State, a: Action, e: Client)
    requires OwnsAt(s, e) && a.Step? && Running(s, a.c) && Clean(s, a)
    requires Running(s, e) && ExclusiveRegion(s.pcs[e]) && ProbePc(s.pcs[a.c])
    ensures var t := Next(s, a);
            t.exclusive == s.exclusive && !t.pcs[a.c].SharedHeld? && !t.pcs[a.c].SharedCreate?
  {
  }

  predicate SharedPc(pc: Pc) {
    pc.SharedCreate? || pc.SharedFill? || pc.SharedUndo? || pc.SharedWait? || pc.SharedHeld?
  }

  predicate ScanPc(pc: Pc) {
    pc.ExclList? || pc.ExclScan? || pc.ExclRead? || pc.ExclDrop?
  }

  predicate OwnerPc(pc: Pc) {
    pc.ExclCreate? || pc.ExclFill? || pc.ExclUndo? || pc.ExclWait? || pc.ExclHeld?
  }

  lemma OwnsShared(s: State, o: Client, outcome: Outcome, c: Client)
    requires OwnsAt(s, c) && Running(s, o) && SharedPc(s.pcs[o])
    ensures OwnsAt(StepShared(s, o, s.pcs[o], outcome), c)
  {
  }

  lemma OwnsScan(s: State, o: Client, outcome: Outcome, pick: Client, c: Client)
    requires OwnsAt(s, c) && OwnsAt(s, o) && Running(s, o) && ScanPc(s.pcs[o])
    ensures OwnsAt(StepScan(s, o, s.pcs[o], outcome, pick), c)
  {
  }

  lemma OwnsOwner(s: State, o: Client, outcome: Outcome, c: Client)
    requires OwnsAt(s, c) && OwnsAt(s, o) && Running(s, o) && OwnerPc(s.pcs[o])
    ensures OwnsAt(StepExclusive(s, o, s.pcs[o], outcome), c)
  {
  }

  lemma OwnsNext(s: State, a: Action, c: Client)
    requires OwnsAt(s, c) && OwnsAt(s, a.c) && Clean(s, a)
    ensures OwnsAt(Next(s, a), c)
  {
    if a.Step? && Running(s, a.c) {
      var pc := s.pcs[a.c];
      if ProbePc(pc) {
      } else if SharedPc(pc) {
        OwnsShared(s, a.c, a.outcome, c);
      } else if ScanPc(pc) {
        OwnsScan(s, a.c, a.outcome, a.pick, c);
      } else if OwnerPc(pc) {
        OwnsOwner(s, a.c, a.outcome, c);
      }
    }
  }

  lemma HolderShared(s: State, o: Client, outcome: Outcome, c: Client)
    requires HolderAt(s, c) && Running(s, o) && SharedPc(s.pcs[o])
    ensures HolderAt(StepShared(s, o, s.pcs[o], outcome), c)
  {
  }

  lemma HolderExclusive(s: State, o: Client, outcome: Outcome, c: Client)
    requires HolderAt(s, c) && Running(s, o) && OwnerPc(s.pcs[o])
    ensures HolderAt(StepExclusive(s, o, s.pcs[o], outcome), c)
  {
  }

  lemma HolderNext(s: State, a: Action, c: Client)
    requires HolderAt(s, c) && ScanPair(s, a.c, c)
    ensures HolderAt(Next(s, a), c)
  {
    if a.Step? && Running(s, a.c) {
      if SharedPc(s.pcs[a.c]) {
        HolderShared(s, a.c, a.outcome, c);
      } else if OwnerPc(s.pcs[a.c]) {
        HolderExclusive(s, a.c, a.outcome, c);
      }
    }
  }

  lemma ScanNextOwner(s: State, a: Action, e: Client, c: Client)
    requires ScanPair(s, e, c) && HolderAt(s, c) && a.Step? && a.c == e && Running(s, e) && Running(s, c)
    ensures ScanPair(Next(s, a), e, c)
  {
  }

  lemma ScanNextOther(s: State, a: Action, e: Client)
    requires ScanPair(s, e, a.c) && OwnsAt(s, e) && Clean(s, a) && a.Step? && Running(s, a.c) && a.c != e
    ensures ScanPair(Next(s, a), e, a.c)
  {
    var pc, t := s.pcs[a.c], Next(s, a);
    assert e in s.pcs ==> e in t.pcs && t.pcs[e] == s.pcs[e];
    if Running(s, e) && ExclusiveRegion(s.pcs[e]) {
      if ProbePc(pc) {
        NoPassBesideRegion(s, a, e);
        ProbeStaysOut(s, a);
      } else if pc.SharedCreate? {
        assert !Listed(s.pcs[e], a.c);
      } else {
        OnlyProbesPass(s, a);
      }
    }
  }

  lemma ProbeStaysOut(s: State, a: Action)
    requires a.Step? && Running(s, a.c) && ProbePc(s.pcs[a.c])
    ensures HolderRegion(Next(s, a).pcs[a.c]) ==> HolderRegion(s.pcs[a.c])
  {
  }

  /** A client only comes to hold the shared lock, or to create its holder file, by a probe. */
  lemma OnlyProbesPass(s: State, a: Action)
    requires a.Step? && Running(s, a.c) && !ProbePc(s.pcs[a.c]) && !s.pcs[a.c].SharedCreate?
    ensures var p := Next(s, a).pcs[a.c];
            && !p.SharedCreate? && (p.SharedHeld? ==> s.pcs[a.c].SharedHeld?)
            && (HolderRegion(p) ==> HolderRegion(s.pcs[a.c]))
  {
  }

  lemma ScanNextAside(s: State, a: Action, e: Client, c: Client)
    requires ScanPair(s, e, c) && (a.Step? ==> !Running(s, a.c) || (a.c != e && a.c != c) || !Running(s, c))
    ensures ScanPair(Next(s, a), e, c)
  {
  }

  lemma ScanNext(s: State, a: Action, e: Client, c: Client)
    requires ScanPair(s, e, c) && OwnsAt(s, e) && HolderAt(s, c) && Clean(s, a)
    ensures ScanPair(Next(s, a), e, c)
  {
    if a.Step? && Running(s, a.c) && Running(s, c) {
      if a.c == e {
        ScanNextOwner(s, a, e, c);
      } else if a.c == c {
        ScanNextOther(s, a, e);
      } else {
        ScanNextAside(s, a, e, c);
      }
    } else {
      ScanNextAside(s, a, e, c);
    }
  }

  lemma OwnsAllNext(s: State, a: Action)
    requires OwnsExclusive(s) && Clean(s, a)
    ensures OwnsExclusive(Next(s, a))
  {
    forall c ensures OwnsAt(Next(s, a), c) {
      assert OwnsAt(s, c) && OwnsAt(s, a.c);
      OwnsNext(s, a, c);
    }
  }

  lemma InvNext(s: State, a: Action)
    requires Inv(s) && Clean(s, a)
    ensures Inv(Next(s, a))
  {
    var t := Next(s, a);
    OwnsAllNext(s, a);
    NoStrayExclusiveNext(s, a);
    forall c ensures HolderAt(t, c) {
      assert HolderAt(s, c) && ScanPair(s, a.c, c);
      HolderNext(s, a, c);
    }
    assert OwnsAt(s, a.c);
    forall e, c ensures ScanPair(t, e, c) {
      assert ScanPair(s, e, c) && OwnsAt(s, e) && HolderAt(s, c);
      ScanNext(s, a, e, c);
    }
  }

  lemma {:induction false} InvExec(s: State, run: seq<Action>)
    requires Inv(s) && CleanRun(s, run)
    ensures Inv(Exec(s, run)) && OwnsThroughout(s, run)
    decreases |run|
  {
    if run != [] {
      InvNext(s, run[0]);
      InvExec(Next(s, run[0]), run[1..]);
    }
  }

  lemma InvGivesExclusion(s: State)
    requires Inv(s)
    ensures Exclusion(s)
  {
    forall e, c | Running(s, e) && s.pcs[e].ExclHeld? && Running(s, c) && c != e
      ensures !s.pcs[c].ExclHeld? && !s.pcs[c].SharedHeld?
    {
      assert ScanPair(s, e, c) && OwnsAt(s, e) && OwnsAt(s, c);
    }
  }

  // ---------------------------------------------------------------- main results

  /** Mutual exclusion after every run whose removals are clean. */
  lemma MutualExclusion(run: seq<Action>)
    requires CleanRun(INIT, run)
    ensures Exclusion(Exec(INIT, run))
  {
    InvExec(INIT, run);
    InvGivesExclusion(Exec(INIT, run));
  }

  lemma UncleanBreaksOwnership(s: State, a: Action)
    requires !Clean(s, a)
    ensures !OwnsExclusive(Next(s, a))
  {
    assert !OwnsAt(Next(s, a), s.exclusive.value.owner);
  }

  lemma {:induction false} OwnershipNeedsCleanRun(s: State, run: seq<Action>)
    requires OwnsThroughout(s, run)
    ensures CleanRun(s, run)
    decreases |run|
  {
    if run != [] {
      var t := Next(s, run[0]);
      if !Clean(s, run[0]) {
        UncleanBreaksOwnership(s, run[0]);
      }
      OwnershipNeedsCleanRun(t, run[1..]);
    }
  }

  /** Exactly the clean runs let every live client keep the exclusive file it relies on. */
  lemma OwnershipIffClean(run: seq<Action>)
    ensures CleanRun(INIT, run) <==> OwnsThroughout(INIT, run)
  {
    if CleanRun(INIT, run) {
      InvExec(INIT, run);
    }
    if OwnsThroughout(INIT, run) {
      OwnershipNeedsCleanRun(INIT, run);
    }
  }

  predicate HasFile(s: State, c: Client) {
    c in s.holders || (s.exclusive.Some? && s.exclusive.value.owner == c)
  }

  /** The step fails to write the content of the file it created, or to remove the client's own file:
      in the undo after a failed or unsuccessful acquisition, or in a release. */
  predicate LeavesFile(pc: Pc, outcome: Outcome) {
    outcome.Fault? &&
      (pc.SharedFill? || pc.SharedUndo? || pc.SharedHeld? || pc.ExclFill? || pc.ExclUndo? || pc.ExclHeld?)
  }

  ghost predicate NoStray(s: State) {
    NoStrayExclusive(s) && forall c :: NoStrayHolder(s, c)
  }

  lemma NoStrayHolderNext(s: State, a: Action, c: Client)
    requires NoStrayHolder(s, c)
    ensures NoStrayHolder(Next(s, a), c)
  {
    if a.Step? && Running(s, a.c) && SharedPc(s.pcs[a.c]) {
      StrayShared(s, a.c, a.outcome, c);
    }
  }

  lemma StrayShared(s: State, o: Client, outcome: Outcome, c: Client)
    requires NoStrayHolder(s, c) && Running(s, o) && SharedPc(s.pcs[o])
    ensures NoStrayHolder(StepShared(s, o, s.pcs[o], outcome), c)
  {
  }

  lemma NoStrayExclusiveNext(s: State, a: Action)
    requires NoStrayExclusive(s)
    ensures NoStrayExclusive(Next(s, a))
  {
    if a.Step? && Running(s, a.c) && OwnerPc(s.pcs[a.c]) {
      StrayOwner(s, a.c, a.outcome);
    }
  }

  lemma StrayOwner(s: State, o: Client, outcome: Outcome)
    requires NoStrayExclusive(s) && Running(s, o) && OwnerPc(s.pcs[o])
    ensures NoStrayExclusive(StepExclusive(s, o, s.pcs[o], outcome))
  {
  }

  lemma NoStrayNext(s: State, a: Action)
    requires NoStray(s)
    ensures NoStray(Next(s, a))
  {
    NoStrayExclusiveNext(s, a);
    forall c ensures NoStrayHolder(Next(s, a), c) {
      NoStrayHolderNext(s, a, c);
    }
  }

  /** On every run, clean or not, a file of a live client is one the client still knows of. */
  lemma {:induction false} NoStrayExec(s: State, run: seq<Action>)
    requires NoStray(s)
    ensures NoStray(Exec(s, run))
    decreases |run|
  {
    if run != [] {
      NoStrayNext(s, run[0]);
      NoStrayExec(Next(s, run[0]), run[1..]);
    }
  }

  lemma {:induction false} FailedStays(s: State, run: seq<Action>, c: Client)
    requires c in s.pcs && s.pcs[c].Failed?
    ensures c in Exec(s, run).pcs && Exec(s, run).pcs[c] == s.pcs[c]
    decreases |run|
  {
    if run != [] {
      FailedStays(Next(s, run[0]), run[1..], c);
    }
  }

  /** What the failing step leaves, seen from the step. */
  lemma FailingStep(s: State, c: Client, outcome: Outcome, pick: Client)
    requires NoStrayHolder(s, c) && Running(s, c) && !s.pcs[c].Failed?
    requires Next(s, Step(c, outcome, pick)).pcs[c].Failed?
    ensures LeavesFile(s.pcs[c], outcome) <==> Next(s, Step(c, outcome, pick)).pcs[c].left != Nothing
  {
  }

  /** At the end of a run a client that failed long ago has left a file if its pc says so. */
  lemma FailedAtEnd(run: seq<Action>, c: Client)
    requires var t := Exec(INIT, run); Running(t, c) && t.pcs[c].Failed?
    ensures HasFile(Exec(INIT, run), c) ==> Exec(INIT, run).pcs[c].left != Nothing
    ensures CleanRun(INIT, run) ==> (HasFile(Exec(INIT, run), c) <==> Exec(INIT, run).pcs[c].left != Nothing)
  {
    var t := Exec(INIT, run);
    NoStrayExec(INIT, run);
    assert NoStrayHolder(t, c);
    if CleanRun(INIT, run) {
      InvExec(INIT, run);
      assert HolderAt(t, c) && OwnsAt(t, c);
    }
  }

  /** Whenever an acquisition or a release has failed by some step, and its client is still alive: a file
      of its own is on disk only if that step failed to write the content of a file it had created or
      to remove its own file; and as long as removals are clean, exactly then. */
  lemma FailedLeavesNothing(before: seq<Action>, c: Client, outcome: Outcome, pick: Client, after: seq<Action>)
    requires var s := Exec(INIT, before);
             Running(s, c) && !s.pcs[c].Failed? && Next(s, Step(c, outcome, pick)).pcs[c].Failed?
    requires c !in Exec(INIT, before + [Step(c, outcome, pick)] + after).crashed
    ensures var run := before + [Step(c, outcome, pick)] + after;
            && (HasFile(Exec(INIT, run), c) ==> LeavesFile(Exec(INIT, before).pcs[c], outcome))
            && (CleanRun(INIT, run) ==> (HasFile(Exec(INIT, run), c) <==> LeavesFile(Exec(INIT, before).pcs[c], outcome)))
  {
    FailedByStep(before, c, outcome, pick, after);
    LeftByStep(before, c, outcome, pick);
    FailedAtEnd(before + [Step(c, outcome, pick)] + after, c);
  }

  /** What a client failed with stays what it is. */
  lemma FailedByStep(before: seq<Action>, c: Client, outcome: Outcome, pick: Client, after: seq<Action>)
    requires var n := Next(Exec(INIT, before), Step(c, outcome, pick)); c in n.pcs && n.pcs[c].Failed?
    ensures var n, t := Next(Exec(INIT, before), Step(c, outcome, pick)), Exec(INIT, before + [Step(c, outcome, pick)] + after);
            c in t.pcs && t.pcs[c] == n.pcs[c]
  {
    var a := Step(c, outcome, pick);
    ExecSnoc(before, a);
    ExecAppend(INIT, before + [a], after);
    FailedStays(Next(Exec(INIT, before), a), after, c);
  }

  lemma LeftByStep(before: seq<Action>, c: Client, outcome: Outcome, pick: Client)
    requires var s := Exec(INIT, before);
             Running(s, c) && !s.pcs[c].Failed? && Next(s, Step(c, outcome, pick)).pcs[c].Failed?
    ensures var s := Exec(INIT, before);
            LeavesFile(s.pcs[c], outcome) <==> Next(s, Step(c, outcome, pick)).pcs[c].left != Nothing
  {
    NoStrayExec(INIT, before);
    assert NoStrayHolder(Exec(INIT, before), c);
    FailingStep(Exec(INIT, before), c, outcome, pick);
  }

  /** A released lock leaves no file of its client, on any run. */
  lemma ReleasedLeavesNothing(run: seq<Action>, c: Client)
    requires var s := Exec(INIT, run); Running(s, c) && s.pcs[c].Released?
    ensures !HasFile(Exec(INIT, run), c)
  {
    NoStrayExec(INIT, run);
    assert NoStrayHolder(Exec(INIT, run), c);
  }

  // ---------------------------------------------------------------- every failing branch leaves its file

  lemma ExecSnoc(run: seq<Action>, a: Action)
    ensures Exec(INIT, run + [a]) == Next(Exec(INIT, run), a)
  {
    ExecAppend(INIT, run, [a]);
    assert [a][1..] == [];
    assert Exec(Exec(INIT, run), [a]) == Exec(Next(Exec(INIT, run), a), []);
  }

  /** A fault at this point of an acquisition or a release is a failure with the file left, on some run. */
  ghost predicate LeftBy(pc: Pc) {
    exists run, c :: FailsWithFile(Exec(INIT, run), c, pc)
  }

  predicate FailsWithFile(s: State, c: Client, pc: Pc) {
    && Running(s, c) && s.pcs[c] == pc && LeavesFile(pc, Fault)
    && Next(s, Step(c, Fault, 0)).pcs[c].Failed? && HasFile(Next(s, Step(c, Fault, 0)), c)
  }

  lemma Leaves(run: seq<Action>, s: State, c: Client, pc: Pc)
    requires Exec(INIT, run) == s && FailsWithFile(s, c, pc)
    ensures LeftBy(pc)
  {
  }

  lemma Then(run: seq<Action>, s: State, a: Action, t: State) returns (longer: seq<Action>)
    requires Exec(INIT, run) == s && Next(s, a) == t
    ensures Exec(INIT, longer) == t
  {
    ExecSnoc(run, a);
    longer := run + [a];
  }

  /** Client 0 on its way to the shared lock, alone. */
  function Sharing(filled: bool, pc: Pc): State {
    State(None, map[0 := filled], map[0 := pc], {})
  }

  lemma SharedCreated() returns (run: seq<Action>)
    ensures Exec(INIT, run) == Sharing(false, SharedFill)
  {
    var s1 := State(None, map[], map[0 := Look(First)], {});
    var s2 := State(None, map[], map[0 := SharedCreate], {});
    run := Then([], INIT, StartShared(0), s1);
    assert s1.pcs[0 := SharedCreate] == s2.pcs;
    run := Then(run, s1, Go(0), s2);
    assert s2.pcs[0 := SharedFill] == map[0 := SharedFill];
    run := Then(run, s2, Go(0), Sharing(false, SharedFill));
  }

  lemma SharedFilled() returns (run: seq<Action>)
    ensures Exec(INIT, run) == Sharing(true, Look(Recheck))
  {
    var s := Sharing(false, SharedFill);
    run := SharedCreated();
    assert s.pcs[0 := Look(Recheck)] == map[0 := Look(Recheck)] && s.holders[0 := true] == map[0 := true];
    run := Then(run, s, Go(0), Sharing(true, Look(Recheck)));
  }

  lemma SharedWriteLeaves()
    ensures LeftBy(SharedFill)
  {
    var run := SharedCreated();
    Leaves(run, Sharing(false, SharedFill), 0, SharedFill);
  }

  /** Line 68: looking again fails, and so does the removal. */
  lemma SharedUndoLeaves()
    ensures LeftBy(SharedUndo(false))
  {
    var s, t := Sharing(true, Look(Recheck)), Sharing(true, SharedUndo(false));
    var run := SharedFilled();
    assert s.pcs[0 := SharedUndo(false)] == t.pcs;
    run := Then(run, s, Step(0, Fault, 0), t);
    Leaves(run, t, 0, SharedUndo(false));
  }

  lemma SharedReleaseLeaves()
    ensures LeftBy(SharedHeld)
  {
    var s, t := Sharing(true, Look(Recheck)), Sharing(true, SharedHeld);
    var run := SharedFilled();
    assert s.pcs[0 := SharedHeld] == t.pcs;
    run := Then(run, s, Go(0), t);
    Leaves(run, t, 0, SharedHeld);
  }

  /** Client 1 has created the exclusive file beside client 0. */
  function Meeting(shared: Pc, exclusive: Pc): State {
    State(Some(ExclusiveFile(1, !exclusive.ExclFill?)), map[0 := true], map[0 := shared, 1 := exclusive], {})
  }

  lemma Met() returns (run: seq<Action>)
    ensures Exec(INIT, run) == Meeting(Look(Recheck), ExclFill)
  {
    var s := Sharing(true, Look(Recheck));
    var t := State(None, map[0 := true], map[0 := Look(Recheck), 1 := ExclCreate], {});
    run := SharedFilled();
    assert s.pcs[1 := ExclCreate] == t.pcs;
    run := Then(run, s, StartExclusive(1), t);
    assert t.pcs[1 := ExclFill] == Meeting(Look(Recheck), ExclFill).pcs;
    run := Then(run, t, Go(1), Meeting(Look(Recheck), ExclFill));
  }

  /** Line 71: looking again, the shared client finds an exclusive file that was created in between. */
  lemma SharedRetryLeaves()
    ensures LeftBy(SharedUndo(true))
  {
    var s, t, u := Meeting(Look(Recheck), ExclFill), Meeting(Reading(Recheck), ExclFill), Meeting(SharedUndo(true), ExclFill);
    var run := Met();
    assert s.pcs[0 := Reading(Recheck)] == t.pcs;
    run := Then(run, s, Go(0), t);
    assert t.pcs[0 := SharedUndo(true)] == u.pcs;
    run := Then(run, t, Go(0), u);
    Leaves(run, u, 0, SharedUndo(true));
  }

  lemma MetStep(run: seq<Action>, pc: Pc, a: Action, next: Pc) returns (longer: seq<Action>)
    requires Exec(INIT, run) == Meeting(Look(Recheck), pc) && !next.ExclFill?
    requires Next(Meeting(Look(Recheck), pc), a) == Meeting(Look(Recheck), pc).(exclusive := Some(ExclusiveFile(1, true)),
               pcs := Meeting(Look(Recheck), pc).pcs[1 := next])
    ensures Exec(INIT, longer) == Meeting(Look(Recheck), next)
  {
    var s, t := Meeting(Look(Recheck), pc), Meeting(Look(Recheck), next);
    assert s.pcs[1 := next] == t.pcs;
    longer := Then(run, s, a, t);
  }

  lemma MetListing() returns (run: seq<Action>)
    ensures Exec(INIT, run) == Meeting(Look(Recheck), ExclList)
  {
    run := Met();
    run := MetStep(run, ExclFill, Go(1), ExclList);
  }

  lemma MetScanning() returns (run: seq<Action>)
    ensures Exec(INIT, run) == Meeting(Look(Recheck), ExclScan({0}, false))
  {
    run := MetListing();
    assert Meeting(Look(Recheck), ExclList).holders.Keys == {0};
    run := MetStep(run, ExclList, Go(1), ExclScan({0}, false));
  }

  lemma MetReading() returns (run: seq<Action>)
    ensures Exec(INIT, run) == Meeting(Look(Recheck), ExclRead({}, false, 0))
  {
    run := MetScanning();
    assert {0} - {0} == {};
    run := MetStep(run, ExclScan({0}, false), Step(1, Ok, 0), ExclRead({}, false, 0));
  }

  /** Line 104: the scan finds the holder file of client 0. */
  lemma ExclusiveRetryLeaves()
    ensures LeftBy(ExclUndo(true))
  {
    var run := MetReading();
    run := MetStep(run, ExclRead({}, false, 0), Go(1), ExclScan({}, true));
    run := MetStep(run, ExclScan({}, true), Go(1), ExclUndo(true));
    Leaves(run, Meeting(Look(Recheck), ExclUndo(true)), 1, ExclUndo(true));
  }

  /** Line 98: listing the holders fails, and so does the removal. */
  lemma ExclusiveUndoLeaves()
    ensures LeftBy(ExclUndo(false))
  {
    var run := MetListing();
    run := MetStep(run, ExclList, Step(1, Fault, 0), ExclUndo(false));
    Leaves(run, Meeting(Look(Recheck), ExclUndo(false)), 1, ExclUndo(false));
  }

  lemma ExclusiveWriteLeaves()
    ensures LeftBy(ExclFill)
  {
    var run := Met();
    Leaves(run, Meeting(Look(Recheck), ExclFill), 1, ExclFill);
  }

  lemma HeldFails(s: State, c: Client)
    requires s == State(Some(ExclusiveFile(c, true)), map[], map[c := ExclHeld], {})
    ensures FailsWithFile(s, c, ExclHeld)
  {
  }

  lemma ExclusiveReleaseLeaves()
    ensures LeftBy(ExclHeld)
  {
    AcquireAloneHolds(INIT, 0);
    var s := State(Some(ExclusiveFile(0, true)), map[], map[0 := ExclHeld], {});
    assert Exec(INIT, AcquireAlone(0)) == s;
    HeldFails(s, 0);
    Leaves(AcquireAlone(0), s, 0, ExclHeld);
  }

  /** Every branch named by `LeavesFile` does fail with the file left on some run. */
  lemma EveryBranchLeaves(pc: Pc)
    requires LeavesFile(pc, Fault)
    ensures LeftBy(pc)
  {
    match pc
    case SharedFill => SharedWriteLeaves();
    case SharedUndo(retry) => SharedUndoLeaves(); SharedRetryLeaves();
    case SharedHeld => SharedReleaseLeaves();
    case ExclFill => ExclusiveWriteLeaves();
    case ExclUndo(retry) => ExclusiveUndoLeaves(); ExclusiveRetryLeaves();
    case ExclHeld => ExclusiveReleaseLeaves();
  }

  // ---------------------------------------------------------------- trying again, and giving up

  predicate Waiting(pc: Pc) {
    pc.SharedWait? || pc.ExclWait?
  }

  /** The client has failed, or undoes its file only to fail. */
  predicate GivenUp(pc: Pc) {
    pc.Failed? || pc == SharedUndo(false) || pc == ExclUndo(false)
  }

  predicate Takes(s: State, a: Action, c: Client) {
    a.Step? && a.c == c && Running(s, c)
  }

  /** An I/O error of the client's own, or its deadline passed while it was waiting. */
  predicate Cause(s: State, a: Action, c: Client) {
    Takes(s, a, c) && (a.outcome.Fault? || (a.outcome.Alt? && Waiting(s.pcs[c])))
  }

  lemma GivesUpNext(s: State, a: Action, c: Client)
    requires NoStrayHolder(s, c) && c in Next(s, a).pcs && GivenUp(Next(s, a).pcs[c])
    ensures (c in s.pcs && GivenUp(s.pcs[c])) || Cause(s, a, c)
  {
  }

  /** Nobody gives up an acquisition, or a release, without an I/O error or a passed deadline. */
  lemma {:induction false} FailureHasCause(run: seq<Action>, c: Client) returns (k: nat)
    requires c in Exec(INIT, run).pcs && GivenUp(Exec(INIT, run).pcs[c])
    ensures k < |run| && Cause(Exec(INIT, run[..k]), run[k], c)
    decreases |run|
  {
    assert run != [];
    var n := |run| - 1;
    var s := Exec(INIT, run[..n]);
    assert run[..n] + [run[n]] == run;
    ExecSnoc(run[..n], run[n]);
    NoStrayExec(INIT, run[..n]);
    assert NoStrayHolder(s, c);
    GivesUpNext(s, run[n], c);
    if Cause(s, run[n], c) {
      k := n;
    } else {
      k := FailureHasCause(run[..n], c);
      assert run[..n][..k] == run[..k];
    }
  }

  /** A client that finds its deadline passed while it waits has failed for good, and holds nothing. */
  lemma DeadlineEnds(before: seq<Action>, c: Client, pick: Client, after: seq<Action>)
    requires var s := Exec(INIT, before); Running(s, c) && Waiting(s.pcs[c])
    ensures var t := Exec(INIT, before + [Step(c, Alt, pick)] + after); c in t.pcs && t.pcs[c] == Failed(Nothing)
    ensures var t := Exec(INIT, before + [Step(c, Alt, pick)] + after); c !in t.crashed ==> !HasFile(t, c)
  {
    FailedByStep(before, c, Alt, pick, after);
    if c !in Exec(INIT, before + [Step(c, Alt, pick)] + after).crashed {
      FailedAtEnd(before + [Step(c, Alt, pick)] + after, c);
    }
  }

  /** Where an attempt to acquire begins. */
  predicate Attempting(pc: Pc) {
    pc == Look(First) || pc.ExclCreate?
  }

  /** The client has waited in time, or has found that the exclusive file in its way is not that of a live owner. */
  predicate Chance(s: State, a: Action, c: Client) {
    Takes(s, a, c) &&
    (|| (Waiting(s.pcs[c]) && !a.outcome.Alt?)
     || (s.pcs[c] == Look(Busy) && s.exclusive.None? && !a.outcome.Fault?)
     || (s.pcs[c] == Removing(Busy) && !a.outcome.Fault?))
  }

  function Attempts(s: State, run: seq<Action>, c: Client): nat
    decreases |run|
  {
    if run == [] then 0
    else
      (if Takes(s, run[0], c) && Attempting(s.pcs[c]) then 1 else 0) + Attempts(Next(s, run[0]), run[1..], c)
  }

  function Chances(s: State, run: seq<Action>, c: Client): nat
    decreases |run|
  {
    if run == [] then 0 else (if Chance(s, run[0], c) then 1 else 0) + Chances(Next(s, run[0]), run[1..], c)
  }

  /** Whether the client is about to make an attempt. */
  function Due(s: State, c: Client): nat {
    if c !in s.pcs || Attempting(s.pcs[c]) then 1 else 0
  }

  lemma DueNext(s: State, a: Action, c: Client)
    ensures Due(Next(s, a), c) + (if Takes(s, a, c) && Attempting(s.pcs[c]) then 1 else 0)
            <= Due(s, c) + (if Chance(s, a, c) then 1 else 0)
  {
  }

  lemma {:induction false} AttemptsFrom(s: State, run: seq<Action>, c: Client)
    ensures Attempts(s, run, c) <= Due(s, c) + Chances(s, run, c)
    decreases |run|
  {
    if run != [] {
      DueNext(s, run[0], c);
      AttemptsFrom(Next(s, run[0]), run[1..], c);
    }
  }

  /** Every attempt of a client but its first was waited for in time, or had its way cleared. */
  lemma AttemptsAreWaitedFor(run: seq<Action>, c: Client)
    ensures Attempts(INIT, run, c) <= 1 + Chances(INIT, run, c)
  {
    AttemptsFrom(INIT, run, c);
  }

  // ---------------------------------------------------------------- atomic reclaiming

  /** The client has read the exclusive file, or missed it, and has not yet acted on that. */
  predicate Deciding(pc: Pc) {
    pc.Probing? || pc.Removing?
  }

  predicate Undisturbed(s: State, a: Action) {
    forall c | c in s.pcs :: Running(s, c) && Deciding(s.pcs[c]) ==> a.c == c
  }

  /** Nothing comes between reading the exclusive file of a dead owner, probing it and removing it. */
  predicate AtomicRun(s: State, run: seq<Action>)
    decreases |run|
  {
    run == [] || (Undisturbed(s, run[0]) && AtomicRun(Next(s, run[0]), run[1..]))
  }

  /** What a deciding client has seen is still so. */
  predicate UpToDate(s: State, c: Client) {
    Running(s, c) ==>
      && (s.pcs[c].Probing? ==> s.exclusive.Some? && s.exclusive.value.owner == s.pcs[c].owner)
      && (s.pcs[c].Removing? ==> s.exclusive.Some? ==> s.exclusive.value.owner in s.crashed)
  }

  lemma {:induction false} AtomicRunIsClean(s: State, run: seq<Action>)
    requires AtomicRun(s, run) && forall c :: UpToDate(s, c)
    ensures CleanRun(s, run)
    decreases |run|
  {
    if run != [] {
      forall c ensures UpToDate(Next(s, run[0]), c) {
        assert UpToDate(s, c);
      }
      assert UpToDate(s, run[0].c);
      AtomicRunIsClean(Next(s, run[0]), run[1..]);
    }
  }

  /** If reclaiming a dead owner's file is one undisturbed stretch, exclusion holds after every run,
      and every live client keeps the exclusive file it relies on. */
  lemma ExclusionWhenReclaimIsAtomic(run: seq<Action>)
    requires AtomicRun(INIT, run)
    ensures Exclusion(Exec(INIT, run)) && OwnsThroughout(INIT, run)
  {
    AtomicRunIsClean(INIT, run);
    MutualExclusion(run);
    OwnershipIffClean(run);
  }

  // ---------------------------------------------------------------- unclean runs exist

  function Go(c: Client): Action {
    Step(c, Ok, 0)
  }

  /** Acquire the exclusive lock alone: create, fill, list, end of an empty scan. */
  function AcquireAlone(c: Client): seq<Action> {
    [StartExclusive(c), Go(c), Go(c), Go(c), Go(c)]
  }

  lemma {:induction false} ExecAppend(s: State, a: seq<Action>, b: seq<Action>)
    ensures Exec(s, a + b) == Exec(Exec(s, a), b)
    decreases |a|
  {
    if a == [] {
      assert a + b == b;
    } else {
      assert (a + b)[0] == a[0] && (a + b)[1..] == a[1..] + b;
      ExecAppend(Next(s, a[0]), a[1..], b);
    }
  }

  lemma AcquireAloneHolds(s: State, c: Client)
    requires s.exclusive.None? && s.holders == map[] && c !in s.pcs && c !in s.crashed
    ensures Exec(s, AcquireAlone(c))
            == s.(exclusive := Some(ExclusiveFile(c, true)), pcs := s.pcs[c := ExclHeld])
  {
    var run := AcquireAlone(c);
    var s1 := Next(s, run[0]);
    var s2 := Next(s1, run[1]);
    var s3 := Next(s2, run[2]);
    var s4 := Next(s3, run[3]);
    var s5 := Next(s4, run[4]);
    assert s4.pcs[c] == ExclScan({}, false);
    calc {
      Exec(s, run);
      Exec(s1, run[1..]);
      { assert run[1..][1..] == run[2..]; }
      Exec(s2, run[2..]);
      { assert run[2..][1..] == run[3..]; }
      Exec(s3, run[3..]);
      { assert run[3..][1..] == run[4..]; }
      Exec(s4, run[4..]);
      { assert run[4..][1..] == []; }
      s5;
    }
    assert s5.pcs == s.pcs[c := ExclHeld];
  }

  /** A pending removal of a file that is already gone deletes the next owner's file. */
  lemma PendingRemovalBreaksExclusion(run: seq<Action>) returns (longer: seq<Action>)
    requires var s := Exec(INIT, run);
             && s.exclusive.None? && s.holders == map[] && Running(s, 0) && s.pcs[0] == Removing(First)
             && 2 !in s.pcs && 2 !in s.crashed && 3 !in s.pcs && 3 !in s.crashed
    ensures !Exclusion(Exec(INIT, longer)) && Exec(INIT, longer).crashed == Exec(INIT, run).crashed
  {
    var s := Exec(INIT, run);
    longer := run + AcquireAlone(2) + [Go(0)] + AcquireAlone(3);
    ExecAppend(INIT, run, AcquireAlone(2));
    ExecAppend(INIT, run + AcquireAlone(2), [Go(0)]);
    ExecAppend(INIT, run + AcquireAlone(2) + [Go(0)], AcquireAlone(3));
    AcquireAloneHolds(s, 2);
    var s2 := Exec(s, AcquireAlone(2));
    var s3 := Next(s2, Go(0));
    assert Exec(s2, [Go(0)]) == s3;
    AcquireAloneHolds(s3, 3);
    var s4 := Exec(s3, AcquireAlone(3));
    assert Running(s4, 2) && s4.pcs[2].ExclHeld? && Running(s4, 3) && s4.pcs[3].ExclHeld?;
  }

  lemma Unroll4(s: State, run: seq<Action>)
    requires |run| >= 4
    ensures Exec(s, run) == Exec(Next(Next(Next(Next(s, run[0]), run[1]), run[2]), run[3]), run[4..])
  {
    assert run[1..][1..] == run[2..] && run[2..][1..] == run[3..] && run[3..][1..] == run[4..];
    var a := Next(s, run[0]);
    var b := Next(a, run[1]);
    var c := Next(b, run[2]);
    assert Exec(s, run) == Exec(a, run[1..]) == Exec(b, run[2..]) == Exec(c, run[3..]);
  }

  predicate HeldAlone(s: State, o: Client) {
    s.exclusive == Some(ExclusiveFile(o, true)) && s.holders == map[] && Running(s, o) && s.pcs[o].ExclHeld?
  }

  lemma FileVanishes(s: State, c: Client, o: Client)
    requires HeldAlone(s, o) && c != o && c !in s.pcs && c !in s.crashed
    ensures var t := Next(Next(Next(Next(s, StartShared(c)), Go(c)), Go(o)), Go(c));
            t == s.(exclusive := None, pcs := s.pcs[c := Removing(First)][o := Released])
  {
    var s2 := Next(Next(s, StartShared(c)), Go(c));
    assert s2.pcs[c] == Reading(First);
    var s3 := Next(s2, Go(o));
    assert s3.pcs == s.pcs[c := Reading(First)][o := Released];
    var t := Next(s3, Go(c));
    assert t.pcs == s.pcs[c := Removing(First)][o := Released];
  }

  /** A second client finds the owner dead as well and removes the file at once. */
  lemma OwnerReclaimed(s: State, c: Client, o: Client)
    requires s.exclusive == Some(ExclusiveFile(o, true)) && o in s.crashed && c !in s.pcs && c !in s.crashed
    ensures var t := Next(Next(Next(Next(Next(s, StartShared(c)), Go(c)), Go(c)), Go(c)), Go(c));
            t == s.(exclusive := None, pcs := s.pcs[c := SharedCreate])
  {
    var s2 := Next(Next(s, StartShared(c)), Go(c));
    assert s2.pcs[c] == Reading(First);
    var s3 := Next(s2, Go(c));
    assert s3.pcs == s.pcs[c := Probing(First, o)];
    var s4 := Next(s3, Go(c));
    assert s4.pcs == s.pcs[c := Removing(First)];
    var t := Next(s4, Go(c));
    assert t.pcs == s.pcs[c := SharedCreate];
  }

  lemma Unroll5(s: State, run: seq<Action>)
    requires |run| == 5
    ensures Exec(s, run) == Next(Next(Next(Next(Next(s, run[0]), run[1]), run[2]), run[3]), run[4])
  {
    Unroll4(s, run);
    assert run[4..][1..] == [];
    var t := Next(Next(Next(Next(s, run[0]), run[1]), run[2]), run[3]);
    assert Exec(t, run[4..]) == Exec(Next(t, run[4]), []);
  }

  /** Without a single crash: a shared client looks at the exclusive file, its owner releases it, the
      read reports the file missing, the next owner takes the lock, and the pending removal deletes
      the new owner's file, so that a third client acquires as well. */
  lemma MissingFileRace()
    ensures exists run :: !Exclusion(Exec(INIT, run)) && Exec(INIT, run).crashed == {}
  {
    var alone, race := AcquireAlone(1), [StartShared(0), Go(0), Go(1), Go(0)];
    AcquireAloneHolds(INIT, 1);
    var s := Exec(INIT, alone);
    ExecAppend(INIT, alone, race);
    Unroll4(s, race);
    assert Exec(Next(Next(Next(Next(s, race[0]), race[1]), race[2]), race[3]), race[4..]) == Exec(s, race);
    assert race[4..] == [];
    FileVanishes(s, 0, 1);
    var longer := PendingRemovalBreaksExclusion(alone + race);
  }

  /** A lone owner has crashed and client 0 has found it dead. */
  lemma DeadOwnerFound() returns (run: seq<Action>)
    ensures Exec(INIT, run) == State(Some(ExclusiveFile(1, true)), map[], map[1 := ExclHeld, 0 := Removing(First)], {1})
  {
    var found := [Crash(1), StartShared(0), Go(0), Go(0), Go(0)];
    AcquireAloneHolds(INIT, 1);
    var s := Exec(INIT, AcquireAlone(1));
    ExecAppend(INIT, AcquireAlone(1), found);
    Unroll5(s, found);
    run := AcquireAlone(1) + found;
  }

  /** With one crash: a client finds the owner dead, another one reclaims the file, and the first one's
      pending removal then deletes the next owner's file. */
  lemma DeadOwnerRace()
    ensures exists run :: !Exclusion(Exec(INIT, run)) && Exec(INIT, run).crashed == {1}
  {
    var run := DeadOwnerFound();
    var t := Exec(INIT, run);
    var reclaimed := [StartShared(4), Go(4), Go(4), Go(4), Go(4)];
    Unroll5(t, reclaimed);
    OwnerReclaimed(t, 4, 1);
    ExecAppend(INIT, run, reclaimed);
    var longer := PendingRemovalBreaksExclusion(run + reclaimed);
  }

  // ---------------------------------------------------------------- one scan of the holders

  /** `doubtful` are the owners whose file cannot be read, or who cannot be told dead. */
  predicate Keeps(holders: map<Client, bool>, crashed: set<Client>, doubtful: set<Client>, c: Client) {
    c in holders && !(holders[c] && c in crashed && c !in doubtful)
  }

  function Reclaimed(holders: map<Client, bool>, crashed: set<Client>, doubtful: set<Client>, entries: set<Client>):
      set<Client> {
    set c | c in entries && c in holders && !Keeps(holders, crashed, doubtful, c)
  }

  /** An entry of the directory; `Odd` is anything but a regular file. */
  datatype Entry = HolderFile(owner: Client) | Odd(name: nat)

  function Owners(entries: set<Entry>): set<Client> {
    set e | e in entries && e.HolderFile? :: e.owner
  }

  class HolderDirectory {
    var holders: map<Client, bool>
    var odd: set<nat>

    constructor (holders: map<Client, bool>, odd: set<nat>)
      ensures this.holders == holders && this.odd == odd
    {
      this.holders, this.odd := holders, odd;
    }

    function Entries(): set<Entry>
      reads this
    {
      (set c | c in holders :: HolderFile(c)) + (set n | n in odd :: Odd(n))
    }

    predicate Live(crashed: set<Client>, doubtful: set<Client>, e: Entry)
      reads this
    {
      match e
      case HolderFile(c) => Keeps(holders, crashed, doubtful, c)
      case Odd(n) => n in odd
    }

    /** `collectLiveHolders` without anybody else: what is live, half written, doubtful or not a file is
        reported, the files of dead owners are removed.  The scan ends where it stands, with an error,
        exactly if it meets a file of an `unseen` owner, which cannot be looked at, or a dead `stuck`
        owner's file, which cannot be removed. */
    method CollectLiveHolders(crashed: set<Client>, doubtful: set<Client>, unseen: set<Client>, stuck: set<Client>)
      returns (ok: bool, live: seq<Entry>)
      modifies this
      ensures odd == old(odd)
      ensures ok <==> forall c | c in old(holders) ::
                c !in unseen && (c in stuck ==> Keeps(old(holders), crashed, doubtful, c))
      ensures ok ==> forall e :: e in live <==> old(Live(crashed, doubtful, e))
      ensures ok ==> holders == old(holders) - Reclaimed(old(holders), crashed, doubtful, old(holders).Keys)
      ensures exists gone :: gone <= Reclaimed(old(holders), crashed, doubtful, old(holders).Keys)
                          && holders == old(holders) - gone
    {
      live := [];
      ghost var gone: set<Client> := {};
      var entries := Entries();
      var todo := entries;
      assert holders - {} == holders;
      while todo != {}
        invariant todo <= entries == old(Entries()) && odd == old(odd)
        invariant gone == Reclaimed(old(holders), crashed, doubtful, Owners(entries - todo))
        invariant holders == old(holders) - gone
        invariant forall c | c in old(holders) && HolderFile(c) !in todo ::
                    c !in unseen && (c in stuck ==> Keeps(old(holders), crashed, doubtful, c))
        invariant forall e :: e in live <==> e in entries - todo && old(Live(crashed, doubtful, e))
      {
        var entry :| entry in todo;
        ghost var seen := entries - todo;
        todo := todo - {entry};
        assert entries - todo == seen + {entry};
        if entry.Odd? {
          live := live + [entry];
        } else {
          var owner := entry.owner;
          if owner in unseen {
            return false, live;
          }
          assert owner in holders && holders[owner] == old(holders)[owner];
          if holders[owner] && owner in crashed && owner !in doubtful {
            if owner in stuck {
              return false, live;
            }
            holders := holders - {owner};
            gone := gone + {owner};
          } else {
            live := live + [entry];
          }
        }
      }
      assert entries - {} == entries && Owners(entries) == old(holders).Keys;
      ok := true;
    }
  }

  /** One entry of a scan nobody interferes with. */
  lemma ScanEntry(s: State, c: Client, todo: set<Client>, live: bool, e: Client, doubtful: set<Client>)
      returns (run: seq<Action>)
    requires Running(s, c) && s.pcs[c] == ExclScan(todo, live) && e in todo && e in s.holders
    ensures forall a | a in run :: a.Step? && a.c == c
    ensures Exec(s, run) == s.(
              holders := s.holders - Reclaimed(s.holders, s.crashed, doubtful, {e}),
              pcs := s.pcs[c := ExclScan(todo - {e}, live || Keeps(s.holders, s.crashed, doubtful, e))])
  {
    var s1 := Next(s, Step(c, Ok, e));
    assert s1.pcs[c] == ExclRead(todo - {e}, live, e);
    var read := Step(c, if e in doubtful then Alt else Ok, 0);
    var s2 := Next(s1, read);
    if Keeps(s.holders, s.crashed, doubtful, e) {
      run := [Step(c, Ok, e), read];
      assert s2.pcs == s.pcs[c := ExclScan(todo - {e}, true)];
      assert s.holders - {} == s.holders;
      assert run[1..][1..] == [];
      assert Exec(s, run) == Exec(s1, run[1..]) == Exec(s2, []);
    } else {
      var s3 := Next(s2, Go(c));
      run := [Step(c, Ok, e), read, Go(c)];
      assert Reclaimed(s.holders, s.crashed, doubtful, {e}) == {e};
      assert s3.pcs == s.pcs[c := ExclScan(todo - {e}, live)];
      assert run[1..][1..] == [Go(c)] && [Go(c)][1..] == [];
      assert Exec(s, run) == Exec(s1, run[1..]) == Exec(s2, [Go(c)]) == Exec(s3, []);
    }
  }

  /** The interleaved machine, when one client scans undisturbed, does what `CollectLiveHolders` does. */
  lemma {:induction false} ScanAlone(s: State, c: Client, todo: set<Client>, live: bool, doubtful: set<Client>)
      returns (run: seq<Action>)
    requires Running(s, c) && s.pcs[c] == ExclScan(todo, live) && todo <= s.holders.Keys
    ensures forall a | a in run :: a.Step? && a.c == c
    ensures Exec(s, run) == s.(
              holders := s.holders - Reclaimed(s.holders, s.crashed, doubtful, todo),
              pcs := s.pcs[c := ExclScan({}, live || exists e | e in todo :: Keeps(s.holders, s.crashed, doubtful, e))])
    decreases todo
  {
    if todo == {} {
      run := [];
      assert s.holders - {} == s.holders;
      assert s.pcs[c := s.pcs[c]] == s.pcs;
    } else {
      var e :| e in todo;
      var first := ScanEntry(s, c, todo, live, e, doubtful);
      var t := Exec(s, first);
      var rest := ScanAlone(t, c, todo - {e}, t.pcs[c].live, doubtful);
      run := first + rest;
      ExecAppend(s, first, rest);
      assert Reclaimed(s.holders, s.crashed, doubtful, {e}) + Reclaimed(t.holders, s.crashed, doubtful, todo - {e})
          == Reclaimed(s.holders, s.crashed, doubtful, todo);
      assert forall x | x in todo - {e} ::
          Keeps(t.holders, s.crashed, doubtful, x) == Keeps(s.holders, s.crashed, doubtful, x);
      assert t.pcs[c := Exec(s, run).pcs[c]] == s.pcs[c := Exec(s, run).pcs[c]];
    }
  }
}
