/** Leases, neutralization, quarantine and shutdown of the agent session supervisor, over all
    interleavings of its fibers.

    A lease and the capsule it opens share one id, which also names the capsule's ownership manifest on
    disk.  Each action is one stretch of code without a yield point; what the file system, the process
    table and the callers decide comes with the action, and an action that does not apply changes nothing.

    A capsule writes its manifest again whenever its phase changes, and its cleanup does not wait for such
    a write.  So a write is begun by one action and ends by another, at any later moment. */
module SessionSupervisor {
  import opened Options

  type Session = string
  type Id = nat

  /** How capsule cleanup ended: process tree dead and manifest gone, the same with an error, or residual. */
  datatype Cleanup = Clean | FailedDead | FailedResidual

  /** A capsule exists from `Starting` on; `Closing(false)` is the end of a lease that got none to use. */
  datatype LeasePc =
    | Validating | Opening | Starting | Using | Closing(capsule: bool) | Closed(result: Cleanup)
    | Finished(result: Cleanup)

  /** `cleaned` is what the cached cleanup of the capsule, which may run long before the lease ends, gave. */
  datatype Lease = Lease(session: Session, pc: LeasePc, cleaned: Option<Cleanup>)

  datatype Drain = Unseen | Waiting(lease: Id) | Drained(ok: bool)

  datatype NeutralizationPc =
    | Preflight(todo: set<Session>) | Draining(drains: map<Session, Drain>) | Ending(committed: bool) | Over

  datatype Neutralization = Neutralization(sessions: set<Session>, pc: NeutralizationPc)

  datatype Shutdown = NotAsked | Joining(records: set<Id>) | Clearing | Complete

  /** `leases` to `closed` are the supervisor's own fields; `disk` maps each ownership manifest to its
      session, and `writes` are the manifest writes under way; `lives`, `neutralizations` and `shutdown`
      say where the fibers are.  A quarantine entry remembers the manifest it was last validated against,
      if any. */
  datatype State = State(
    leases: map<Session, Id>,
    neutralizing: set<Session>,
    quarantined: map<Session, Option<Id>>,
    closed: bool,
    disk: map<Id, Session>,
    writes: multiset<Id>,
    lives: map<Id, Lease>,
    neutralizations: map<Id, Neutralization>,
    shutdown: Shutdown)

  /** What `findOwnershipManifest` returns. */
  datatype Find = Unreadable | NotFound | Found(manifest: Id)

  datatype Action =
    | Acquire(session: Session, lease: Id)
    | Validate(lease: Id, find: Find, dead: bool)
    | StartCapsule(lease: Id)
    | BeginWrite(lease: Id)
    | EndWrite(lease: Id, landed: bool)
    | Opened(lease: Id)
    | CleanCapsule(lease: Id, result: Cleanup, written: bool)
    | Leave(lease: Id)
    | CloseCapsule(lease: Id)
    | CloseMissing(lease: Id, find: Find, dead: bool)
    | Settle(lease: Id)
    | Neutralize(id: Id, sessions: set<Session>)
    | Check(id: Id, session: Session, find: Find, dead: bool)
    | DrainSession(id: Id, session: Session)
    | Cancel(id: Id)
    | Commit(id: Id)
    | Unmark(id: Id)
    | BeginShutdown
    | JoinShutdown
    | EndShutdown

  function SetPc(st: State, lease: Id, pc: LeasePc): State
    requires lease in st.lives
  {
    st.(lives := st.lives[lease := st.lives[lease].(pc := pc)])
  }

  function SetPhase(st: State, id: Id, pc: NeutralizationPc): State
    requires id in st.neutralizations
  {
    st.(neutralizations := st.neutralizations[id := st.neutralizations[id].(pc := pc)])
  }

  predicate At(st: State, lease: Id, pc: LeasePc) {
    lease in st.lives && st.lives[lease].pc == pc
  }

  /** The search tells the truth about the disk. */
  predicate Truthful(st: State, session: Session, find: Find) {
    match find
    case Unreadable => true
    case NotFound => forall m | m in st.disk :: st.disk[m] != session
    case Found(m) => m in st.disk && st.disk[m] == session
  }

  /** `withSessionLease` up to the start of the lease's fiber. */
  function AcquireStep(st: State, session: Session, lease: Id): State {
    if st.closed || session in st.neutralizing || session in st.leases then st
    else st.(leases := st.leases[session := lease], lives := st.lives[lease := Lease(session, Validating, None)])
  }

  /** `revalidateQuarantine`: the state after it, and whether the session stays quarantined. */
  function Revalidate(st: State, session: Session, find: Find, dead: bool): (State, bool) {
    if session !in st.quarantined then (st, false)
    else if find.Unreadable? || (find.NotFound? && st.quarantined[session].None?) then (st, true)
    else
      var m := if find.Found? then find.manifest else st.quarantined[session].value;
      if dead then (st.(disk := st.disk - {m}, quarantined := st.quarantined - {session}), false)
      else (st.(quarantined := st.quarantined[session := Some(m)]), true)
  }

  /** The end of `settleLeaseCleanup`. */
  function SettleStep(st: State, lease: Id): State
    requires lease in st.lives && st.lives[lease].pc.Closed?
  {
    var session, result := st.lives[lease].session, st.lives[lease].pc.result;
    var noted := if result.FailedResidual? then st.(quarantined := st.quarantined[session := None]) else st;
    var dropped := if session in noted.leases && noted.leases[session] == lease
                   then noted.(leases := noted.leases - {session}) else noted;
    SetPc(dropped, lease, Finished(result))
  }

  /** `withSessionsNeutralized` up to the start of its fiber. */
  function NeutralizeStep(st: State, id: Id, sessions: set<Session>): State {
    if st.closed || sessions * st.neutralizing != {} then st
    else st.(neutralizing := st.neutralizing + sessions,
             neutralizations := st.neutralizations[id := Neutralization(sessions, AfterPreflight(sessions, sessions))])
  }

  function AfterPreflight(sessions: set<Session>, todo: set<Session>): NeutralizationPc {
    if todo == {} then Draining(map s | s in sessions :: Unseen) else Preflight(todo)
  }

  /** The capsule's fibers may still be at work. */
  predicate HasCapsule(pc: LeasePc) {
    pc.Starting? || pc.Using? || pc == Closing(true)
  }

  /** The cleanup found the process tree dead and removed the manifest. */
  predicate CleanedWell(life: Lease) {
    life.cleaned.Some? && !life.cleaned.value.FailedResidual?
  }

  /** `closeCapsuleValue`, which ends by removing the manifest or by writing it as degraded. */
  function CleanStep(st: State, lease: Id, result: Cleanup, written: bool): State
    requires lease in st.lives
  {
    var life := st.lives[lease];
    var disk := if !result.FailedResidual? then st.disk - {lease}
                else if written then st.disk[lease := life.session] else st.disk;
    st.(disk := disk, lives := st.lives[lease := life.(cleaned := Some(result))])
  }

  predicate Moving(a: Action) {
    a.StartCapsule? || a.Opened? || a.Leave? || a.CloseCapsule?
  }

  /** Where a lease is after one of these actions. */
  function Moved(life: Lease, onDisk: bool, a: Action): LeasePc
    requires Moving(a)
  {
    match a
    case StartCapsule(_) => if life.pc.Opening? then Starting else life.pc
    case Opened(_) => if life.pc.Starting? && onDisk && life.cleaned.None? then Using else life.pc
    case Leave(_) =>
      (match life.pc
       case Validating | Opening => Closing(false)
       case Starting => if life.cleaned.Some? then Closing(false) else Starting
       case Using => Closing(true)
       case _ => life.pc)
    case CloseCapsule(_) =>
      if life.pc == Closing(true) && life.cleaned.Some? then Closed(life.cleaned.value) else life.pc
  }

  function MoveStep(st: State, a: Action): State
    requires Moving(a)
  {
    if a.lease in st.lives then SetPc(st, a.lease, Moved(st.lives[a.lease], a.lease in st.disk, a)) else st
  }

  function NextLease(st: State, a: Action): State
    requires OfLease(a)
  {
    match a
    case Acquire(session, lease) =>
      if lease in st.lives || lease in st.disk || Some(lease) in st.quarantined.Values then st
      else AcquireStep(st, session, lease)
    case Validate(lease, find, dead) =>
      if !At(st, lease, Validating) || !Truthful(st, st.lives[lease].session, find) then st
      else
        var (after, blocked) := Revalidate(st, st.lives[lease].session, find, dead);
        SetPc(after, lease, if blocked then Closing(false) else Opening)
    case StartCapsule(lease) => MoveStep(st, a)
    case BeginWrite(lease) =>
      if lease in st.lives && HasCapsule(st.lives[lease].pc) then st.(writes := st.writes + multiset{lease}) else st
    case EndWrite(lease, landed) =>
      if lease !in st.writes || lease !in st.lives then st
      else
        st.(writes := st.writes - multiset{lease},
            disk := if landed then st.disk[lease := st.lives[lease].session] else st.disk)
    case Opened(lease) => MoveStep(st, a)
    case CleanCapsule(lease, result, written) =>
      if lease in st.lives && HasCapsule(st.lives[lease].pc) && st.lives[lease].cleaned.None?
      then CleanStep(st, lease, result, written) else st
    case Leave(lease) => MoveStep(st, a)
    case CloseCapsule(lease) => MoveStep(st, a)
    case CloseMissing(lease, find, dead) =>
      if !At(st, lease, Closing(false)) || !Truthful(st, st.lives[lease].session, find) then st
      else
        (match find
         case Unreadable => SetPc(st, lease, Closed(FailedResidual))
         case NotFound => SetPc(st, lease, Closed(Clean))
         case Found(m) =>
           if dead then SetPc(st.(disk := st.disk - {m}), lease, Closed(Clean))
           else SetPc(st, lease, Closed(FailedResidual)))
    case Settle(lease) => if lease in st.lives && st.lives[lease].pc.Closed? then SettleStep(st, lease) else st
  }

  function DrainStep(st: State, id: Id, session: Session): State
    requires id in st.neutralizations && st.neutralizations[id].pc.Draining?
    requires session in st.neutralizations[id].pc.drains
  {
    var drains := st.neutralizations[id].pc.drains;
    match drains[session]
    case Unseen =>
      SetPhase(st, id, Draining(drains[session :=
        if session in st.leases then Waiting(st.leases[session]) else Drained(true)]))
    case Waiting(lease) =>
      if lease in st.lives && st.lives[lease].pc.Finished?
      then SetPhase(st, id, Draining(drains[session := Drained(st.lives[lease].pc.result.Clean?)])) else st
    case Drained(_) => st
  }

  function NextNeutralization(st: State, a: Action): State
    requires a.Neutralize? || a.Check? || a.DrainSession? || a.Cancel? || a.Commit? || a.Unmark?
  {
    if a.Neutralize? then if a.id in st.neutralizations then st else NeutralizeStep(st, a.id, a.sessions)
    else if a.id !in st.neutralizations then st
    else
      var n := st.neutralizations[a.id];
      match a
      case Check(id, session, find, dead) =>
        if !n.pc.Preflight? || session !in n.pc.todo || !Truthful(st, session, find) then st
        else
          var (after, blocked) := Revalidate(st, session, find, dead);
          SetPhase(after, id, if blocked then Ending(false) else AfterPreflight(n.sessions, n.pc.todo - {session}))
      case DrainSession(id, session) =>
        if n.pc.Draining? && session in n.pc.drains then DrainStep(st, id, session) else st
      case Cancel(id) =>
        if n.pc.Preflight? || (n.pc.Draining? && forall s | s in n.pc.drains :: n.pc.drains[s].Drained?)
        then SetPhase(st, id, Ending(false)) else st
      case Commit(id) =>
        if n.pc.Draining? && forall s | s in n.pc.drains :: n.pc.drains[s] == Drained(true)
        then SetPhase(st, id, Ending(true)) else st
      case Unmark(id) =>
        if n.pc.Ending? then SetPhase(st.(neutralizing := st.neutralizing - n.sessions), id, Over) else st
  }

  function NextShutdown(st: State, a: Action): State
    requires a.BeginShutdown? || a.JoinShutdown? || a.EndShutdown?
  {
    match a
    case BeginShutdown =>
      if st.shutdown.NotAsked? then st.(closed := true, shutdown := Joining(st.leases.Values)) else st
    case JoinShutdown =>
      if st.shutdown.Joining? && forall l | l in st.shutdown.records :: l in st.lives && st.lives[l].pc.Finished?
      then st.(shutdown := Clearing) else st
    case EndShutdown =>
      if st.shutdown.Clearing? && (forall l | l in st.lives :: st.lives[l].pc.Finished?)
         && (forall n | n in st.neutralizations :: st.neutralizations[n].pc.Over?)
      then st.(shutdown := Complete) else st
  }

  function Next(st: State, a: Action): State {
    match a
    case Acquire(_, _) | Validate(_, _, _) | StartCapsule(_) | BeginWrite(_) | EndWrite(_, _) | Opened(_)
      | CleanCapsule(_, _, _) | Leave(_) | CloseCapsule(_) | CloseMissing(_, _, _) | Settle(_) => NextLease(st, a)
    case Neutralize(_, _) | Check(_, _, _, _) | DrainSession(_, _) | Cancel(_) | Commit(_) | Unmark(_) =>
      NextNeutralization(st, a)
    case BeginShutdown | JoinShutdown | EndShutdown => NextShutdown(st, a)
  }

  function Exec(st: State, run: seq<Action>): State
    decreases |run|
  {
    if run == [] then st else Exec(Next(st, run[0]), run[1..])
  }

  /** What recovery hands over: one manifest a session at most, and every one of them quarantined. */
  ghost predicate Initial(st: State) {
    && st.leases == map[] && st.neutralizing == {} && !st.closed && st.lives == map[]
    && st.neutralizations == map[] && st.shutdown.NotAsked? && st.writes == multiset{}
    && (forall m, n | m in st.disk && n in st.disk :: st.disk[m] == st.disk[n] ==> m == n)
    && (forall m | m in st.disk :: st.disk[m] in st.quarantined)
    && (forall s, m | s in st.quarantined && st.quarantined[s] == Some(m) && m in st.disk :: st.disk[m] == s)
  }

  // ---------------------------------------------------------------- the invariant, point by point

  predicate LeaseAt(st: State, s: Session) {
    s in st.leases ==>
      var l := st.leases[s]; l in st.lives && st.lives[l].session == s && !st.lives[l].pc.Finished?
  }

  predicate LifeAt(st: State, l: Id) {
    l in st.lives ==>
      var s, pc := st.lives[l].session, st.lives[l].pc;
      && (!pc.Finished? ==> s in st.leases && st.leases[s] == l)
      && (pc.Opening? || HasCapsule(pc) ==> s !in st.quarantined)
  }

  predicate FileAt(st: State, l: Id) {
    l in st.lives ==>
      var s, pc := st.lives[l].session, st.lives[l].pc;
      && (pc.Using? || pc == Closing(true) ==>
            (st.lives[l].cleaned.None? ==> l in st.disk) && (CleanedWell(st.lives[l]) ==> l !in st.disk))
      && (pc.Validating? || pc.Opening? ==> l !in st.disk)
      && (l in st.disk ==> st.disk[l] == s)
  }

  /** A write under way is of a capsule that was started, and only of one of each session. */
  predicate WriteAt(st: State, l: Id, m: Id) {
    l in st.writes ==>
      && l in st.lives && !st.lives[l].pc.Validating? && !st.lives[l].pc.Opening?
      && (!st.lives[l].pc.Finished? ==> st.lives[l].session !in st.quarantined)
      && (m in st.disk && st.disk[m] == st.lives[l].session ==> m == l)
      && (m in st.writes && m in st.lives && st.lives[m].session == st.lives[l].session ==> m == l)
  }

  predicate ManifestAt(st: State, m: Id) {
    m in st.disk ==>
      var s := st.disk[m]; (s in st.leases && st.leases[s] == m) || s in st.quarantined
  }

  predicate ManifestPair(st: State, m: Id, n: Id) {
    m in st.disk && n in st.disk && st.disk[m] == st.disk[n] ==> m == n
  }

  predicate QuarantineAt(st: State, s: Session, m: Id) {
    && (s in st.quarantined && st.quarantined[s] == Some(m) && m in st.disk ==> st.disk[m] == s)
    && (s in st.quarantined && st.quarantined[s] == Some(m) && m in st.lives ==> st.lives[m].session == s)
  }

  /** A cleanup that ended well left no manifest of its session behind, but for a quarantined one. */
  predicate ClosedAt(st: State, l: Id, m: Id) {
    l in st.lives && st.lives[l].pc.Closed? && !st.lives[l].pc.result.FailedResidual? ==>
      (m in st.disk && st.disk[m] == st.lives[l].session ==> st.disk[m] in st.quarantined)
  }

  predicate NeutralizationAt(st: State, n: Id) {
    n in st.neutralizations && !st.neutralizations[n].pc.Over? ==>
      var sessions, pc := st.neutralizations[n].sessions, st.neutralizations[n].pc;
      && sessions <= st.neutralizing
      && (pc.Draining? ==> pc.drains.Keys == sessions)
      && (pc == Ending(true) ==> forall s | s in sessions :: s !in st.leases)
  }

  predicate DrainAt(st: State, n: Id, s: Session) {
    n in st.neutralizations && st.neutralizations[n].pc.Draining? && s in st.neutralizations[n].pc.drains ==>
      match st.neutralizations[n].pc.drains[s]
      case Unseen => true
      case Waiting(l) => l in st.lives && st.lives[l].session == s && (s in st.leases ==> st.leases[s] == l)
      case Drained(_) => s !in st.leases
  }

  predicate NeutralizationPair(st: State, m: Id, n: Id) {
    m in st.neutralizations && n in st.neutralizations && m != n
    && !st.neutralizations[m].pc.Over? && !st.neutralizations[n].pc.Over? ==>
      st.neutralizations[m].sessions !! st.neutralizations[n].sessions
  }

  predicate ShutdownAt(st: State, s: Session) {
    match st.shutdown
    case NotAsked => true
    case Joining(records) => st.closed && (s in st.leases ==> st.leases[s] in records)
    case Clearing | Complete => st.closed && s !in st.leases
  }

  /** What holds whatever happens to the files. */
  ghost predicate Table(st: State) {
    && (forall s :: LeaseAt(st, s) && ShutdownAt(st, s))
    && (forall l :: LifeAt(st, l))
    && (forall l | l in st.writes :: l in st.lives)
    && (forall n :: NeutralizationAt(st, n))
    && (forall n, s :: DrainAt(st, n, s))
    && (forall m, n :: NeutralizationPair(st, m, n))
  }

  /** What holds of the files as long as no write outlasts its capsule unwatched. */
  ghost predicate Files(st: State) {
    && (forall l :: FileAt(st, l))
    && (forall m :: ManifestAt(st, m))
    && (forall m, n :: ManifestPair(st, m, n))
    && (forall s, m :: QuarantineAt(st, s, m))
    && (forall l, m :: ClosedAt(st, l, m))
    && (forall l, m :: WriteAt(st, l, m))
  }

  /** Somebody will still look for the lease's manifest: its cleanup is to come or failed, the lease has
      no capsule and will search for a manifest, or the session is quarantined. */
  predicate Watched(st: State, l: Id) {
    l in st.lives &&
    (st.lives[l].session in st.quarantined ||
     match st.lives[l].pc
     case Validating | Opening | Starting => true
     case Using => !CleanedWell(st.lives[l])
     case Closing(capsule) => !capsule || !CleanedWell(st.lives[l])
     case Closed(result) => result.FailedResidual?
     case Finished(_) => false)
  }

  /** No write is under way of a manifest that nobody will look for. */
  predicate Quiet(st: State) {
    forall l | l in st.writes :: Watched(st, l)
  }

  predicate OfLease(a: Action) {
    a.Acquire? || a.Validate? || a.StartCapsule? || a.BeginWrite? || a.EndWrite? || a.Opened? || a.CleanCapsule?
    || a.Leave? || a.CloseCapsule? || a.CloseMissing? || a.Settle?
  }

  predicate SameOperations(st: State, t: State) {
    t.neutralizing == st.neutralizing && t.neutralizations == st.neutralizations
    && t.closed == st.closed && t.shutdown == st.shutdown
  }

  predicate SameLeases(st: State, t: State) {
    && t.leases == st.leases && t.lives.Keys == st.lives.Keys
    && forall k | k in st.lives ::
         t.lives[k].session == st.lives[k].session && (t.lives[k].pc.Finished? <==> st.lives[k].pc.Finished?)
  }

  predicate SameFiles(st: State, t: State) {
    t.leases == st.leases && t.lives == st.lives && t.quarantined == st.quarantined
    && t.disk == st.disk && t.writes == st.writes
  }

  // ---------------------------------------------------------------- the table

  /** Moving on fibers of unfinished leases. */
  lemma TableMoves(st: State, t: State)
    requires Table(st) && SameLeases(st, t) && SameOperations(st, t)
    requires forall l | l in t.lives && (t.lives[l].pc.Opening? || HasCapsule(t.lives[l].pc)) ::
               t.lives[l].session !in t.quarantined
    requires forall l | l in t.writes :: l in t.lives
    ensures Table(t)
  {
    forall s ensures LeaseAt(t, s) && ShutdownAt(t, s) { assert LeaseAt(st, s) && ShutdownAt(st, s); }
    forall l ensures LifeAt(t, l) { assert LifeAt(st, l); }
    forall n ensures NeutralizationAt(t, n) { assert NeutralizationAt(st, n); }
    forall n, s ensures DrainAt(t, n, s) { assert DrainAt(st, n, s); }
    forall m, n ensures NeutralizationPair(t, m, n) { assert NeutralizationPair(st, m, n); }
  }

  lemma AcquireTable(st: State, session: Session, l: Id)
    requires Table(st) && l !in st.lives
    ensures Table(AcquireStep(st, session, l))
  {
    var t := AcquireStep(st, session, l);
    if t != st {
      forall x ensures LeaseAt(t, x) && ShutdownAt(t, x) { assert LeaseAt(st, x) && ShutdownAt(st, x); }
      forall k ensures LifeAt(t, k) { assert LifeAt(st, k); }
      forall n ensures NeutralizationAt(t, n) { assert NeutralizationAt(st, n); }
      forall n, x ensures DrainAt(t, n, x) { assert DrainAt(st, n, x) && NeutralizationAt(st, n); }
      forall m, n ensures NeutralizationPair(t, m, n) { assert NeutralizationPair(st, m, n); }
    }
  }

  /** Giving up leases changes nothing for neutralizations and shutdown. */
  lemma FewerLeases(st: State, t: State)
    requires Table(st) && SameOperations(st, t)
    requires t.leases.Keys <= st.leases.Keys && forall s | s in t.leases :: t.leases[s] == st.leases[s]
    requires t.lives.Keys == st.lives.Keys && forall k | k in st.lives :: t.lives[k].session == st.lives[k].session
    ensures (forall n :: NeutralizationAt(t, n)) && (forall n, s :: DrainAt(t, n, s))
            && (forall m, n :: NeutralizationPair(t, m, n)) && (forall s :: ShutdownAt(t, s))
  {
    forall s ensures ShutdownAt(t, s) { assert ShutdownAt(st, s); }
    forall n ensures NeutralizationAt(t, n) { assert NeutralizationAt(st, n); }
    forall n, x ensures DrainAt(t, n, x) { assert DrainAt(st, n, x); }
    forall m, n ensures NeutralizationPair(t, m, n) { assert NeutralizationPair(st, m, n); }
  }

  lemma SettleTable(st: State, l: Id)
    requires Table(st) && l in st.lives && st.lives[l].pc.Closed?
    ensures Table(SettleStep(st, l))
  {
    var t, s := SettleStep(st, l), st.lives[l].session;
    assert LifeAt(st, l);
    assert t.leases == st.leases - {s} && SameOperations(st, t);
    FewerLeases(st, t);
    SettledLives(st, l);
    forall x ensures LeaseAt(t, x) { assert LeaseAt(st, x); }
  }

  lemma SettledLives(st: State, l: Id)
    requires Table(st) && l in st.lives && st.lives[l].pc.Closed?
    ensures var t := SettleStep(st, l); forall k :: LifeAt(t, k)
  {
    var t := SettleStep(st, l);
    assert LifeAt(st, l);
    forall k ensures LifeAt(t, k) { assert LifeAt(st, k); }
  }

  lemma DiskTable(st: State, disk: map<Id, Session>)
    requires Table(st)
    ensures Table(st.(disk := disk))
  {
    var t := st.(disk := disk);
    forall l | l in t.lives && (t.lives[l].pc.Opening? || HasCapsule(t.lives[l].pc))
      ensures t.lives[l].session !in t.quarantined
    {
      assert LifeAt(st, l);
    }
    TableMoves(st, t);
  }

  /** Moving on one unfinished lease. */
  lemma LifeTable(st: State, l: Id, life: Lease)
    requires Table(st) && l in st.lives && life.session == st.lives[l].session
    requires !st.lives[l].pc.Finished? && !life.pc.Finished?
    requires life.pc.Opening? || HasCapsule(life.pc) ==> life.session !in st.quarantined
    ensures Table(st.(lives := st.lives[l := life]))
  {
    var t := st.(lives := st.lives[l := life]);
    forall k | k in t.lives && (t.lives[k].pc.Opening? || HasCapsule(t.lives[k].pc))
      ensures t.lives[k].session !in t.quarantined
    {
      assert LifeAt(st, k);
    }
    TableMoves(st, t);
  }

  lemma WritesTable(st: State, writes: multiset<Id>)
    requires Table(st) && forall l | l in writes :: l in st.lives
    ensures Table(st.(writes := writes))
  {
    var t := st.(writes := writes);
    forall l | l in t.lives && (t.lives[l].pc.Opening? || HasCapsule(t.lives[l].pc))
      ensures t.lives[l].session !in t.quarantined
    {
      assert LifeAt(st, l);
    }
    TableMoves(st, t);
  }

  lemma ValidateTable(st: State, l: Id, find: Find, dead: bool)
    requires Table(st)
    ensures Table(NextLease(st, Validate(l, find, dead)))
  {
    if At(st, l, Validating) && Truthful(st, st.lives[l].session, find) {
      var (t, blocked) := Revalidate(st, st.lives[l].session, find, dead);
      RevalidateMoves(st, st.lives[l].session, find, dead);
      RevalidateTable(st, st.lives[l].session, find, dead);
      LifeTable(t, l, t.lives[l].(pc := if blocked then Closing(false) else Opening));
    }
  }

  lemma CloseMissingTable(st: State, l: Id, find: Find, dead: bool)
    requires Table(st)
    ensures Table(NextLease(st, CloseMissing(l, find, dead)))
  {
    var t := NextLease(st, CloseMissing(l, find, dead));
    if t != st {
      DiskTable(st, t.disk);
      LifeTable(st.(disk := t.disk), l, t.lives[l]);
    }
  }

  lemma MoveTable(st: State, a: Action)
    requires Table(st) && Moving(a)
    ensures Table(MoveStep(st, a))
  {
    if a.lease in st.lives {
      var life := st.lives[a.lease];
      var pc := Moved(life, a.lease in st.disk, a);
      if pc == life.pc {
        assert st.lives[a.lease := life.(pc := pc)] == st.lives;
      } else {
        assert LifeAt(st, a.lease);
        LifeTable(st, a.lease, life.(pc := pc));
      }
    }
  }

  lemma CleanTable(st: State, l: Id, result: Cleanup, written: bool)
    requires Table(st) && l in st.lives && HasCapsule(st.lives[l].pc)
    ensures Table(CleanStep(st, l, result, written))
  {
    var t := CleanStep(st, l, result, written);
    assert LifeAt(st, l);
    DiskTable(st, t.disk);
    LifeTable(st.(disk := t.disk), l, t.lives[l]);
  }

  lemma EndWriteTable(st: State, l: Id, landed: bool)
    requires Table(st)
    ensures Table(NextLease(st, EndWrite(l, landed)))
  {
    if l in st.writes && l in st.lives {
      var disk := if landed then st.disk[l := st.lives[l].session] else st.disk;
      DiskTable(st, disk);
      WritesTable(st.(disk := disk), st.writes - multiset{l});
    }
  }

  lemma LeaseTable(st: State, a: Action)
    requires Table(st) && OfLease(a)
    ensures Table(NextLease(st, a))
  {
    match a {
      case Acquire(session, l) => if l !in st.lives { AcquireTable(st, session, l); }
      case Validate(l, find, dead) => ValidateTable(st, l, find, dead);
      case CloseMissing(l, find, dead) => CloseMissingTable(st, l, find, dead);
      case Settle(l) => if l in st.lives && st.lives[l].pc.Closed? { SettleTable(st, l); }
      case BeginWrite(l) =>
        if l in st.lives && HasCapsule(st.lives[l].pc) { WritesTable(st, st.writes + multiset{l}); }
      case EndWrite(l, landed) => EndWriteTable(st, l, landed);
      case CleanCapsule(l, result, written) =>
        if l in st.lives && HasCapsule(st.lives[l].pc) && st.lives[l].cleaned.None? {
          CleanTable(st, l, result, written);
        }
      case _ => MoveTable(st, a);
    }
  }

  /** A change of one neutralization's phase, of the marks, or of the shutdown. */
  lemma OperationTable(st: State, t: State)
    requires Table(st) && t.leases == st.leases && t.lives == st.lives && t.quarantined == st.quarantined
    requires t.writes == st.writes
    requires (forall n :: NeutralizationAt(t, n)) && (forall n, s :: DrainAt(t, n, s))
             && (forall m, n :: NeutralizationPair(t, m, n)) && (forall s :: ShutdownAt(t, s))
    ensures Table(t)
  {
    forall x ensures LeaseAt(t, x) { assert LeaseAt(st, x); }
    forall k ensures LifeAt(t, k) { assert LifeAt(st, k); }
  }

  /** Giving an active neutralization its next phase. */
  lemma PhaseTable(st: State, id: Id, pc: NeutralizationPc)
    requires Table(st) && id in st.neutralizations && !st.neutralizations[id].pc.Over? && !pc.Over?
    requires var sessions := st.neutralizations[id].sessions;
             && (pc.Draining? ==> pc.drains.Keys == sessions)
             && (pc == Ending(true) ==> forall s | s in sessions :: s !in st.leases)
    requires forall s :: DrainAt(SetPhase(st, id, pc), id, s)
    ensures Table(SetPhase(st, id, pc))
  {
    var t := SetPhase(st, id, pc);
    forall n ensures NeutralizationAt(t, n) { assert NeutralizationAt(st, n); }
    forall n, s ensures DrainAt(t, n, s) { assert n != id ==> DrainAt(st, n, s); }
    forall m, n ensures NeutralizationPair(t, m, n) { assert NeutralizationPair(st, m, n); }
    forall s ensures ShutdownAt(t, s) { assert ShutdownAt(st, s); }
    OperationTable(st, t);
  }

  lemma NeutralizeTable(st: State, id: Id, sessions: set<Session>)
    requires Table(st) && id !in st.neutralizations
    ensures Table(NeutralizeStep(st, id, sessions))
  {
    var t := NeutralizeStep(st, id, sessions);
    if t != st {
      forall n ensures NeutralizationAt(t, n) { assert NeutralizationAt(st, n); }
      forall n, s ensures DrainAt(t, n, s) { assert DrainAt(st, n, s); }
      forall m, n ensures NeutralizationPair(t, m, n) {
        assert NeutralizationPair(st, m, n) && NeutralizationAt(st, m) && NeutralizationAt(st, n);
        assert forall s | s in sessions && s in st.neutralizing :: s in sessions * st.neutralizing;
      }
      forall s ensures ShutdownAt(t, s) { assert ShutdownAt(st, s); }
      OperationTable(st, t);
    }
  }

  lemma UnmarkTable(st: State, id: Id)
    requires Table(st) && id in st.neutralizations && st.neutralizations[id].pc.Ending?
    ensures Table(SetPhase(st.(neutralizing := st.neutralizing - st.neutralizations[id].sessions), id, Over))
  {
    var t := SetPhase(st.(neutralizing := st.neutralizing - st.neutralizations[id].sessions), id, Over);
    forall n ensures NeutralizationAt(t, n) { assert NeutralizationAt(st, n) && NeutralizationPair(st, id, n); }
    forall n, s ensures DrainAt(t, n, s) { assert DrainAt(st, n, s); }
    forall m, n ensures NeutralizationPair(t, m, n) { assert NeutralizationPair(st, m, n); }
    forall s ensures ShutdownAt(t, s) { assert ShutdownAt(st, s); }
    OperationTable(st, t);
  }

  lemma DrainTable(st: State, id: Id, session: Session)
    requires Table(st) && id in st.neutralizations && st.neutralizations[id].pc.Draining?
    requires session in st.neutralizations[id].pc.drains
    ensures Table(DrainStep(st, id, session))
  {
    var t := DrainStep(st, id, session);
    assert NeutralizationAt(st, id) && LeaseAt(st, session) && DrainAt(st, id, session);
    if t != st {
      forall s ensures DrainAt(t, id, s) {
        assert DrainAt(st, id, s);
      }
      PhaseTable(st, id, t.neutralizations[id].pc);
    }
  }

  lemma RevalidateMoves(st: State, session: Session, find: Find, dead: bool)
    ensures var (t, blocked) := Revalidate(st, session, find, dead);
            && t == st.(disk := t.disk, quarantined := t.quarantined)
            && t.quarantined.Keys <= st.quarantined.Keys && (!blocked ==> session !in t.quarantined)
  {
  }

  lemma RevalidateTable(st: State, session: Session, find: Find, dead: bool)
    requires Table(st)
    ensures Table(Revalidate(st, session, find, dead).0)
  {
    RevalidateMoves(st, session, find, dead);
    var t := Revalidate(st, session, find, dead).0;
    forall l | l in t.lives && (t.lives[l].pc.Opening? || HasCapsule(t.lives[l].pc))
      ensures t.lives[l].session !in t.quarantined
    {
      assert LifeAt(st, l);
    }
    TableMoves(st, t);
  }

  lemma CheckTable(st: State, a: Action)
    requires Table(st) && a.Check?
    ensures Table(NextNeutralization(st, a))
  {
    if a.id in st.neutralizations {
      var n := st.neutralizations[a.id];
      if n.pc.Preflight? && a.session in n.pc.todo && Truthful(st, a.session, a.find) {
        var (t, blocked) := Revalidate(st, a.session, a.find, a.dead);
        RevalidateMoves(st, a.session, a.find, a.dead);
        RevalidateTable(st, a.session, a.find, a.dead);
        PhaseTable(t, a.id, if blocked then Ending(false) else AfterPreflight(n.sessions, n.pc.todo - {a.session}));
      }
    }
  }

  /** A neutralization that can commit has none of its sessions leased. */
  lemma CommitNeedsNoLease(st: State, id: Id)
    requires Table(st) && id in st.neutralizations && st.neutralizations[id].pc.Draining?
    requires forall s | s in st.neutralizations[id].pc.drains :: st.neutralizations[id].pc.drains[s] == Drained(true)
    ensures forall s | s in st.neutralizations[id].sessions :: s !in st.leases
  {
    assert NeutralizationAt(st, id);
    forall s | s in st.neutralizations[id].sessions ensures s !in st.leases {
      assert DrainAt(st, id, s);
    }
  }

  lemma NeutralizationTable(st: State, a: Action)
    requires Table(st) && (a.Neutralize? || a.Check? || a.DrainSession? || a.Cancel? || a.Commit? || a.Unmark?)
    ensures Table(NextNeutralization(st, a))
  {
    if a.Neutralize? {
      if a.id !in st.neutralizations { NeutralizeTable(st, a.id, a.sessions); }
    } else if a.Check? {
      CheckTable(st, a);
    } else if a.id in st.neutralizations {
      var n := st.neutralizations[a.id];
      if a.DrainSession? && n.pc.Draining? && a.session in n.pc.drains {
        DrainTable(st, a.id, a.session);
      } else if a.Cancel? && NextNeutralization(st, a) != st {
        PhaseTable(st, a.id, Ending(false));
      } else if a.Commit? && NextNeutralization(st, a) != st {
        CommitNeedsNoLease(st, a.id);
        PhaseTable(st, a.id, Ending(true));
      } else if a.Unmark? && n.pc.Ending? {
        UnmarkTable(st, a.id);
      }
    }
  }

  /** The lease table while shutdown moves on. */
  lemma ShutdownMoves(st: State, a: Action, s: Session)
    requires Table(st) && (a.BeginShutdown? || a.JoinShutdown? || a.EndShutdown?)
    ensures ShutdownAt(NextShutdown(st, a), s)
  {
    assert ShutdownAt(st, s) && LeaseAt(st, s);
    if s in st.leases {
      assert st.leases[s] in st.leases.Values;
    }
  }

  lemma ShutdownKeeps(st: State, t: State)
    requires Table(st) && t == st.(closed := t.closed, shutdown := t.shutdown) && forall s :: ShutdownAt(t, s)
    ensures Table(t)
  {
    forall n ensures NeutralizationAt(t, n) { assert NeutralizationAt(st, n); }
    forall n, s ensures DrainAt(t, n, s) { assert DrainAt(st, n, s); }
    forall m, n ensures NeutralizationPair(t, m, n) { assert NeutralizationPair(st, m, n); }
    OperationTable(st, t);
  }

  lemma ShutdownTable(st: State, a: Action)
    requires Table(st) && (a.BeginShutdown? || a.JoinShutdown? || a.EndShutdown?)
    ensures Table(NextShutdown(st, a))
  {
    var t := NextShutdown(st, a);
    forall s ensures ShutdownAt(t, s) { ShutdownMoves(st, a, s); }
    assert t == st.(closed := t.closed, shutdown := t.shutdown);
    ShutdownKeeps(st, t);
  }

  lemma TableNext(st: State, a: Action)
    requires Table(st)
    ensures Table(Next(st, a))
  {
    if OfLease(a) {
      LeaseTable(st, a);
    } else if a.BeginShutdown? || a.JoinShutdown? || a.EndShutdown? {
      ShutdownTable(st, a);
    } else {
      NeutralizationTable(st, a);
    }
  }

  lemma TableInit(init: State)
    requires Initial(init)
    ensures Table(init) && Files(init) && Quiet(init)
  {
  }

  lemma {:induction false} TableFrom(st: State, run: seq<Action>)
    requires Table(st)
    ensures Table(Exec(st, run))
    decreases |run|
  {
    if run != [] {
      TableNext(st, run[0]);
      TableFrom(Next(st, run[0]), run[1..]);
    }
  }

  lemma TableExec(init: State, run: seq<Action>)
    requires Initial(init)
    ensures Table(Exec(init, run))
  {
    TableInit(init);
    TableFrom(init, run);
  }

  // ---------------------------------------------------------------- the files

  lemma UnmovedFiles(st: State, t: State)
    requires Files(st) && SameFiles(st, t)
    ensures Files(t)
  {
    forall l ensures FileAt(t, l) { assert FileAt(st, l); }
    forall m ensures ManifestAt(t, m) { assert ManifestAt(st, m); }
    forall m, n ensures ManifestPair(t, m, n) { assert ManifestPair(st, m, n); }
    forall s, m ensures QuarantineAt(t, s, m) { assert QuarantineAt(st, s, m); }
    forall l, m ensures ClosedAt(t, l, m) { assert ClosedAt(st, l, m); }
    forall l, m ensures WriteAt(t, l, m) { assert WriteAt(st, l, m); }
  }

  lemma RevalidateKeeps(st: State, session: Session, find: Find, dead: bool)
    requires Table(st) && Files(st) && Truthful(st, session, find)
    ensures Files(Revalidate(st, session, find, dead).0)
  {
    var t := Revalidate(st, session, find, dead).0;
    if session in st.quarantined && !find.Unreadable? && !(find.NotFound? && st.quarantined[session].None?) {
      var m := if find.Found? then find.manifest else st.quarantined[session].value;
      assert QuarantineAt(st, session, m) && FileAt(st, m);
      assert t.disk.Keys <= st.disk.Keys && forall k | k in t.disk :: t.disk[k] == st.disk[k];
      assert t.quarantined.Keys <= st.quarantined.Keys;
      forall k ensures ManifestAt(t, k) { assert ManifestAt(st, k) && ManifestPair(st, m, k); }
      forall k, n ensures ManifestPair(t, k, n) { assert ManifestPair(st, k, n); }
      forall l ensures FileAt(t, l) { assert FileAt(st, l) && LifeAt(st, l); }
      forall s, k ensures QuarantineAt(t, s, k) { assert QuarantineAt(st, s, k); }
      forall l, k ensures ClosedAt(t, l, k) { assert ClosedAt(st, l, k) && ManifestPair(st, m, k); }
      forall l, k ensures WriteAt(t, l, k) { assert WriteAt(st, l, k); }
    }
  }

  /** Moving on an unfinished lease, with its own manifest written, removed or left. */
  predicate Moves(st: State, l: Id, life: Lease, disk: map<Id, Session>)
    requires l in st.lives
  {
    var s, pc := st.lives[l].session, life.pc;
    && life.session == s && !st.lives[l].pc.Finished? && !pc.Finished?
    && (disk == st.disk || disk == st.disk - {l} || (disk == st.disk[l := s] && s !in st.quarantined))
    && (pc.Using? || pc == Closing(true) ==> (life.cleaned.None? ==> l in disk) && (CleanedWell(life) ==> l !in disk))
    && (pc.Validating? || pc.Opening? ==> l !in disk && l !in st.writes)
    && (pc.Closed? && !pc.result.FailedResidual? ==> forall m | m in disk && disk[m] == s :: s in st.quarantined)
  }

  lemma MoveKeeps(st: State, l: Id, life: Lease, disk: map<Id, Session>)
    requires Table(st) && Files(st) && Quiet(st) && l in st.lives && Moves(st, l, life, disk)
    ensures Files(st.(disk := disk, lives := st.lives[l := life]))
  {
    var t := st.(disk := disk, lives := st.lives[l := life]);
    assert LifeAt(st, l);
    forall k ensures FileAt(t, k) { assert FileAt(st, k) && LifeAt(st, k); }
    forall m ensures ManifestAt(t, m) { assert ManifestAt(st, m); }
    forall m, n ensures ManifestPair(t, m, n) {
      assert ManifestPair(st, m, n) && ManifestAt(st, m) && ManifestAt(st, n);
    }
    forall x, m ensures QuarantineAt(t, x, m) { assert QuarantineAt(st, x, m); }
    forall k, m ensures ClosedAt(t, k, m) { assert ClosedAt(st, k, m) && LifeAt(st, k); }
    MovedWrites(st, l, life, disk);
  }

  lemma MovedWrites(st: State, l: Id, life: Lease, disk: map<Id, Session>)
    requires Table(st) && Files(st) && Quiet(st) && l in st.lives && Moves(st, l, life, disk)
    ensures var t := st.(disk := disk, lives := st.lives[l := life]); forall k, m :: WriteAt(t, k, m)
  {
    var t := st.(disk := disk, lives := st.lives[l := life]);
    assert LifeAt(st, l);
    forall k, m ensures WriteAt(t, k, m) {
      assert WriteAt(st, k, m) && LifeAt(st, k);
    }
  }

  /** The one write of its session that is under way, or may begin, while a lease is unfinished is its own. */
  lemma OnlyOwnWrites(st: State, l: Id, k: Id)
    requires Table(st) && Quiet(st) && l in st.lives && !st.lives[l].pc.Finished?
    requires st.lives[l].session !in st.quarantined
    requires k in st.writes && k in st.lives && st.lives[k].session == st.lives[l].session
    ensures k == l
  {
    assert LifeAt(st, l) && LifeAt(st, k);
  }

  lemma BeginWriteKeeps(st: State, l: Id)
    requires Table(st) && Files(st) && Quiet(st) && l in st.lives && HasCapsule(st.lives[l].pc)
    ensures Files(st.(writes := st.writes + multiset{l}))
  {
    var t := st.(writes := st.writes + multiset{l});
    assert LifeAt(st, l);
    forall k ensures FileAt(t, k) { assert FileAt(st, k); }
    forall m ensures ManifestAt(t, m) { assert ManifestAt(st, m); }
    forall m, n ensures ManifestPair(t, m, n) { assert ManifestPair(st, m, n); }
    forall x, m ensures QuarantineAt(t, x, m) { assert QuarantineAt(st, x, m); }
    forall k, m ensures ClosedAt(t, k, m) { assert ClosedAt(st, k, m); }
    forall k, m ensures WriteAt(t, k, m) {
      assert WriteAt(st, k, m) && ManifestAt(st, m);
      if k == l && m in st.writes && m in st.lives && st.lives[m].session == st.lives[l].session {
        OnlyOwnWrites(st, l, m);
      } else if m == l && k in st.writes && st.lives[k].session == st.lives[l].session {
        OnlyOwnWrites(st, l, k);
      }
    }
  }

  /** A watched write lands, or fails. */
  lemma EndWriteKeeps(st: State, l: Id, landed: bool)
    requires Table(st) && Files(st) && Quiet(st)
    ensures Files(NextLease(st, EndWrite(l, landed)))
  {
    var t := NextLease(st, EndWrite(l, landed));
    if l in st.writes && l in st.lives {
      assert WriteAt(st, l, l) && LifeAt(st, l) && Watched(st, l);
      forall k ensures FileAt(t, k) { assert FileAt(st, k); }
      forall m ensures ManifestAt(t, m) { assert ManifestAt(st, m); }
      forall m, n ensures ManifestPair(t, m, n) {
        assert ManifestPair(st, m, n) && WriteAt(st, l, m) && WriteAt(st, l, n);
      }
      forall x, m ensures QuarantineAt(t, x, m) { assert QuarantineAt(st, x, m); }
      forall k, m ensures ClosedAt(t, k, m) { assert ClosedAt(st, k, m) && LifeAt(st, k); }
      forall k, m ensures WriteAt(t, k, m) { assert WriteAt(st, k, m); }
    }
  }

  lemma AcquireKeeps(st: State, session: Session, l: Id)
    requires Table(st) && Files(st) && l !in st.lives && l !in st.disk && Some(l) !in st.quarantined.Values
    ensures Files(AcquireStep(st, session, l))
  {
    var t := AcquireStep(st, session, l);
    if t != st {
      forall k ensures FileAt(t, k) { assert FileAt(st, k); }
      forall m ensures ManifestAt(t, m) { assert ManifestAt(st, m); }
      forall m, n ensures ManifestPair(t, m, n) { assert ManifestPair(st, m, n); }
      forall x, m ensures QuarantineAt(t, x, m) {
        assert QuarantineAt(st, x, m);
        assert x in st.quarantined ==> st.quarantined[x] in st.quarantined.Values;
      }
      forall k, m ensures ClosedAt(t, k, m) { assert ClosedAt(st, k, m); }
      forall k, m ensures WriteAt(t, k, m) { assert WriteAt(st, k, m) && WriteAt(st, m, k); }
    }
  }

  lemma SettleKeeps(st: State, l: Id)
    requires Table(st) && Files(st) && l in st.lives && st.lives[l].pc.Closed?
    ensures Files(SettleStep(st, l))
  {
    var t := SettleStep(st, l);
    assert LifeAt(st, l);
    forall k ensures FileAt(t, k) { assert FileAt(st, k); }
    forall m ensures ManifestAt(t, m) { assert ManifestAt(st, m) && ClosedAt(st, l, m); }
    forall m, n ensures ManifestPair(t, m, n) { assert ManifestPair(st, m, n); }
    forall x, m ensures QuarantineAt(t, x, m) { assert QuarantineAt(st, x, m); }
    forall k, m ensures ClosedAt(t, k, m) { assert ClosedAt(st, k, m); }
    SettledWrites(st, l);
  }

  lemma SettledWrites(st: State, l: Id)
    requires Table(st) && Files(st) && l in st.lives && st.lives[l].pc.Closed?
    ensures var t := SettleStep(st, l); forall k, m :: WriteAt(t, k, m)
  {
    var t := SettleStep(st, l);
    assert LifeAt(st, l);
    forall k, m ensures WriteAt(t, k, m) { assert WriteAt(st, k, m) && LifeAt(st, k); }
  }

  lemma CloseMissingKeeps(st: State, l: Id, find: Find, dead: bool)
    requires Table(st) && Files(st) && Quiet(st)
    ensures Files(NextLease(st, CloseMissing(l, find, dead)))
  {
    if At(st, l, Closing(false)) && Truthful(st, st.lives[l].session, find) {
      var s := st.lives[l].session;
      assert st.(disk := st.disk) == st;
      if find.Found? && dead {
        assert ManifestAt(st, find.manifest) && FileAt(st, find.manifest);
        assert LifeAt(st, l) && LifeAt(st, find.manifest);
        forall m | m in st.disk && st.disk[m] == s ensures m == find.manifest {
          assert ManifestPair(st, m, find.manifest);
        }
        RemovalKeeps(st, find.manifest);
        var t := st.(disk := st.disk - {find.manifest});
        DiskTable(st, t.disk);
        MoveKeeps(t, l, t.lives[l].(pc := Closed(Clean)), t.disk);
        assert t.(disk := t.disk) == t;
      } else {
        var pc := if find.NotFound? then Closed(Clean) else Closed(FailedResidual);
        MoveKeeps(st, l, st.lives[l].(pc := pc), st.disk);
      }
    }
  }

  /** Removing a manifest whose process tree was found dead and that no capsule in use relies on. */
  lemma RemovalKeeps(st: State, m: Id)
    requires Files(st)
    requires m in st.lives ==> !st.lives[m].pc.Using? && st.lives[m].pc != Closing(true)
    ensures Files(st.(disk := st.disk - {m}))
  {
    var t := st.(disk := st.disk - {m});
    forall k ensures FileAt(t, k) { assert FileAt(st, k); }
    forall k ensures ManifestAt(t, k) { assert ManifestAt(st, k); }
    forall k, n ensures ManifestPair(t, k, n) { assert ManifestPair(st, k, n); }
    forall x, k ensures QuarantineAt(t, x, k) { assert QuarantineAt(st, x, k); }
    forall l, k ensures ClosedAt(t, l, k) { assert ClosedAt(st, l, k); }
    forall l, k ensures WriteAt(t, l, k) { assert WriteAt(st, l, k); }
  }

  lemma ValidateKeeps(st: State, l: Id, find: Find, dead: bool)
    requires Table(st) && Files(st) && Quiet(st)
    ensures Files(NextLease(st, Validate(l, find, dead)))
  {
    if At(st, l, Validating) && Truthful(st, st.lives[l].session, find) {
      var (t, blocked) := Revalidate(st, st.lives[l].session, find, dead);
      RevalidateKeeps(st, st.lives[l].session, find, dead);
      RevalidateMoves(st, st.lives[l].session, find, dead);
      RevalidateTable(st, st.lives[l].session, find, dead);
      assert FileAt(t, l) && WriteAt(t, l, l);
      StepFiles(t, l, if blocked then Closing(false) else Opening);
    }
  }

  /** Moving on a lease that has no capsule yet. */
  lemma StepFiles(st: State, l: Id, pc: LeasePc)
    requires Files(st) && l in st.lives && st.lives[l].pc.Validating? && (pc.Opening? || pc == Closing(false))
    ensures Files(SetPc(st, l, pc))
  {
    var t := SetPc(st, l, pc);
    forall k ensures FileAt(t, k) { assert FileAt(st, k); }
    forall m ensures ManifestAt(t, m) { assert ManifestAt(st, m); }
    forall m, n ensures ManifestPair(t, m, n) { assert ManifestPair(st, m, n); }
    forall x, m ensures QuarantineAt(t, x, m) { assert QuarantineAt(st, x, m); }
    forall k, m ensures ClosedAt(t, k, m) { assert ClosedAt(st, k, m); }
    forall k, m ensures WriteAt(t, k, m) { assert WriteAt(st, k, m); }
  }

  /** Moving on an unfinished lease beside its files. */
  lemma PcKeeps(st: State, l: Id, pc: LeasePc)
    requires Table(st) && Files(st) && Quiet(st) && l in st.lives && !st.lives[l].pc.Finished? && !pc.Finished?
    requires Moves(st, l, st.lives[l].(pc := pc), st.disk)
    ensures Files(SetPc(st, l, pc))
  {
    MoveKeeps(st, l, st.lives[l].(pc := pc), st.disk);
    assert st.(disk := st.disk) == st;
  }

  lemma MoveStepKeeps(st: State, a: Action)
    requires Table(st) && Files(st) && Quiet(st) && Moving(a)
    ensures Files(MoveStep(st, a))
  {
    if a.lease in st.lives {
      var life := st.lives[a.lease];
      var pc := Moved(life, a.lease in st.disk, a);
      if pc == life.pc {
        assert st.lives[a.lease := life.(pc := pc)] == st.lives;
      } else {
        MayMove(st, a.lease, a);
        PcKeeps(st, a.lease, pc);
      }
    }
  }

  lemma MayMove(st: State, l: Id, a: Action)
    requires Table(st) && Files(st) && l in st.lives && Moving(a)
    requires Moved(st.lives[l], l in st.disk, a) != st.lives[l].pc
    ensures Moves(st, l, st.lives[l].(pc := Moved(st.lives[l], l in st.disk, a)), st.disk)
  {
    assert FileAt(st, l) && WriteAt(st, l, l);
    forall m | m in st.disk && a.CloseCapsule?
      ensures CleanedWell(st.lives[l]) && st.disk[m] == st.lives[l].session ==> st.disk[m] in st.quarantined
    {
      assert ManifestAt(st, m) && LifeAt(st, l);
    }
  }

  lemma FilesOfLease(st: State, a: Action)
    requires Table(st) && Files(st) && Quiet(st) && OfLease(a)
    ensures Files(NextLease(st, a))
  {
    match a {
      case Acquire(session, l) =>
        if l !in st.lives && l !in st.disk && Some(l) !in st.quarantined.Values { AcquireKeeps(st, session, l); }
      case Validate(l, find, dead) => ValidateKeeps(st, l, find, dead);
      case BeginWrite(l) => if l in st.lives && HasCapsule(st.lives[l].pc) { BeginWriteKeeps(st, l); }
      case EndWrite(l, landed) => EndWriteKeeps(st, l, landed);
      case CleanCapsule(l, result, written) => CleanKeeps(st, l, result, written);
      case CloseMissing(l, find, dead) => CloseMissingKeeps(st, l, find, dead);
      case Settle(l) => if l in st.lives && st.lives[l].pc.Closed? { SettleKeeps(st, l); }
      case _ => MoveStepKeeps(st, a);
    }
  }

  lemma CleanKeeps(st: State, l: Id, result: Cleanup, written: bool)
    requires Table(st) && Files(st) && Quiet(st)
    ensures Files(NextLease(st, CleanCapsule(l, result, written)))
  {
    if l in st.lives && HasCapsule(st.lives[l].pc) && st.lives[l].cleaned.None? {
      assert LifeAt(st, l);
      var t := CleanStep(st, l, result, written);
      MoveKeeps(st, l, t.lives[l], t.disk);
    }
  }

  lemma CheckKeeps(st: State, a: Action)
    requires Table(st) && Files(st) && a.Check?
    ensures Files(NextNeutralization(st, a))
  {
    var n := NextNeutralization(st, a);
    if n != st {
      RevalidateKeeps(st, a.session, a.find, a.dead);
      UnmovedFiles(Revalidate(st, a.session, a.find, a.dead).0, n);
    }
  }

  lemma DrainSparesFiles(st: State, a: Action)
    requires a.DrainSession?
    ensures SameFiles(st, NextNeutralization(st, a))
  {
  }

  lemma NeutralizationSparesFiles(st: State, a: Action)
    requires a.Neutralize? || a.Cancel? || a.Commit? || a.Unmark?
    ensures SameFiles(st, NextNeutralization(st, a))
  {
  }

  lemma ShutdownSparesFiles(st: State, a: Action)
    requires a.BeginShutdown? || a.JoinShutdown? || a.EndShutdown?
    ensures SameFiles(st, NextShutdown(st, a))
  {
    match a {
      case BeginShutdown =>
      case JoinShutdown => assert NextShutdown(st, a) == st.(shutdown := NextShutdown(st, a).shutdown);
      case EndShutdown => assert NextShutdown(st, a) == st.(shutdown := NextShutdown(st, a).shutdown);
    }
  }

  lemma OthersSpareFiles(st: State, a: Action)
    requires !OfLease(a) && !a.Check?
    ensures SameFiles(st, Next(st, a))
  {
    if a.DrainSession? {
      DrainSparesFiles(st, a);
    } else if a.BeginShutdown? || a.JoinShutdown? || a.EndShutdown? {
      ShutdownSparesFiles(st, a);
    } else {
      NeutralizationSparesFiles(st, a);
    }
  }

  /** What the table and the files keep, step by step, as long as the writes are watched. */
  lemma InvNext(st: State, a: Action)
    requires Table(st) && Files(st) && Quiet(st)
    ensures Table(Next(st, a)) && Files(Next(st, a))
  {
    TableNext(st, a);
    FilesNext(st, a);
  }

  lemma FilesNext(st: State, a: Action)
    requires Table(st) && Files(st) && Quiet(st)
    ensures Files(Next(st, a))
  {
    if OfLease(a) {
      FilesOfLease(st, a);
    } else if a.Check? {
      CheckKeeps(st, a);
    } else {
      OthersSpareFiles(st, a);
      UnmovedFiles(st, Next(st, a));
    }
  }

  // ---------------------------------------------------------------- main results

  /** Every manifest on disk belongs to a session that is leased by the very lease that wrote it, or
      is quarantined; and no session has two manifests. */
  predicate Accounted(st: State) {
    && (forall m | m in st.disk ::
          (st.disk[m] in st.leases && st.leases[st.disk[m]] == m) || st.disk[m] in st.quarantined)
    && (forall m, n | m in st.disk && n in st.disk && m != n :: st.disk[m] != st.disk[n])
  }

  /** Actions by which what has been begun comes to its end: writes, and leases whose cleanup is done. */
  predicate Finishing(a: Action) {
    a.EndWrite? || a.Leave? || a.CloseCapsule? || a.Settle?
  }

  predicate Finishes(run: seq<Action>) {
    forall a | a in run :: Finishing(a)
  }

  ghost predicate QuietUpTo(init: State, run: seq<Action>, n: nat)
    requires n <= |run| + 1
  {
    forall k | 0 <= k < n :: Quiet(Exec(init, run[..k]))
  }

  lemma FilesAccounted(st: State)
    requires Files(st)
    ensures Accounted(st)
  {
    forall m | m in st.disk
      ensures (st.disk[m] in st.leases && st.leases[st.disk[m]] == m) || st.disk[m] in st.quarantined
    {
      assert ManifestAt(st, m);
    }
    forall m, n | m in st.disk && n in st.disk && m != n ensures st.disk[m] != st.disk[n] {
      assert ManifestPair(st, m, n);
    }
  }

  lemma {:induction false} ExecAppend(st: State, x: seq<Action>, y: seq<Action>)
    ensures Exec(st, x + y) == Exec(Exec(st, x), y)
    decreases |x|
  {
    if x == [] {
      assert x + y == y;
    } else {
      assert (x + y)[1..] == x[1..] + y;
      ExecAppend(Next(st, x[0]), x[1..], y);
    }
  }

  lemma ExecSnoc(st: State, run: seq<Action>, k: nat)
    requires k < |run|
    ensures Exec(st, run[..k + 1]) == Next(Exec(st, run[..k]), run[k])
  {
    assert run[..k + 1] == run[..k] + [run[k]];
    ExecAppend(st, run[..k], [run[k]]);
    assert [run[k]][1..] == [];
    assert Exec(Exec(st, run[..k]), [run[k]]) == Exec(Next(Exec(st, run[..k]), run[k]), []);
  }

  lemma {:induction false} InvPrefix(init: State, run: seq<Action>, n: nat)
    requires Initial(init) && n <= |run| && QuietUpTo(init, run, n)
    ensures Table(Exec(init, run[..n])) && Files(Exec(init, run[..n]))
  {
    if n == 0 {
      TableInit(init);
    } else {
      InvPrefix(init, run, n - 1);
      ExecSnoc(init, run, n - 1);
      InvNext(Exec(init, run[..n - 1]), run[n - 1]);
    }
  }

  /** Ending what has been begun takes nobody's watch away. */
  lemma EndWriteWatched(st: State, k: Id, landed: bool, l: Id)
    requires Watched(st, l)
    ensures Watched(NextLease(st, EndWrite(k, landed)), l)
  {
  }

  lemma MoveWatched(st: State, a: Action, l: Id)
    requires (a.Leave? || a.CloseCapsule?) && Watched(st, l)
    ensures Watched(MoveStep(st, a), l)
  {
  }

  lemma SettleWatched(st: State, k: Id, l: Id)
    requires Watched(st, l)
    ensures Watched(NextLease(st, Settle(k)), l)
  {
  }

  lemma FinishingWatched(st: State, a: Action, l: Id)
    requires Finishing(a) && Watched(st, l)
    ensures Watched(Next(st, a), l)
  {
    match a {
      case EndWrite(k, landed) => EndWriteWatched(st, k, landed, l);
      case Leave(k) => MoveWatched(st, a, l);
      case CloseCapsule(k) => MoveWatched(st, a, l);
      case Settle(k) => SettleWatched(st, k, l);
    }
  }

  lemma FinishingWrites(st: State, a: Action)
    requires Finishing(a)
    ensures NextLease(st, a).writes <= st.writes
  {
  }

  lemma FinishingQuiet(st: State, a: Action)
    requires Quiet(st) && Finishing(a)
    ensures Quiet(Next(st, a))
  {
    var t := Next(st, a);
    FinishingWrites(st, a);
    forall l | l in t.writes ensures Watched(t, l) {
      FinishingWatched(st, a, l);
    }
  }

  lemma {:induction false} FinishesAccounted(st: State, run: seq<Action>)
    requires Table(st) && Files(st) && Quiet(st) && Finishes(run)
    ensures Accounted(Exec(st, run))
    decreases |run|
  {
    if run == [] {
      FilesAccounted(st);
    } else {
      assert run[0] in run;
      InvNext(st, run[0]);
      FinishingQuiet(st, run[0]);
      FinishesAccounted(Next(st, run[0]), run[1..]);
    }
  }

  /** What is left to be done by a lease whose cleanup has removed its manifest. */
  function Rest(pc: LeasePc): nat {
    match pc
    case Using => 3
    case Closing(_) => 2
    case Closed(_) => 1
    case _ => 0
  }

  /** The next thing to be done by a lease whose cleanup has removed its manifest. */
  function LastStep(pc: LeasePc, l: Id): Action {
    match pc
    case Using => Leave(l)
    case Closing(_) => CloseCapsule(l)
    case Closed(_) => Settle(l)
    case _ => EndWrite(l, true)
  }

  lemma StaysUnwatched(st: State, l: Id)
    requires l in st.writes && l in st.lives && !Watched(st, l) && !st.lives[l].pc.Finished?
    ensures var t := NextLease(st, LastStep(st.lives[l].pc, l));
            l in t.writes && l in t.lives && !Watched(t, l) && Rest(t.lives[l].pc) < Rest(st.lives[l].pc)
  {
    if st.lives[l].pc.Closed? {
      assert SettleStep(st, l).lives[l].pc.Finished?;
    } else {
      UnwatchedMoves(st, l, LastStep(st.lives[l].pc, l));
    }
  }

  lemma UnwatchedMoves(st: State, l: Id, a: Action)
    requires l in st.lives && !Watched(st, l) && Moving(a) && a.lease == l
    requires (st.lives[l].pc.Using? && a.Leave?) || (st.lives[l].pc.Closing? && a.CloseCapsule?)
    ensures l in MoveStep(st, a).lives && !Watched(MoveStep(st, a), l)
            && Rest(MoveStep(st, a).lives[l].pc) < Rest(st.lives[l].pc)
  {
  }

  lemma LandsUnaccounted(st: State, l: Id)
    requires Table(st) && l in st.writes && l in st.lives && !Watched(st, l) && st.lives[l].pc.Finished?
    ensures !Accounted(NextLease(st, EndWrite(l, true)))
  {
    var t, s := NextLease(st, EndWrite(l, true)), st.lives[l].session;
    assert LeaseAt(st, s);
    assert l in t.disk && t.disk[l] == s;
  }

  /** A write that nobody watches can put back a manifest that nobody accounts for. */
  lemma {:induction false} LateWrite(st: State, l: Id) returns (more: seq<Action>)
    requires Table(st) && l in st.writes && l in st.lives && !Watched(st, l)
    ensures Finishes(more) && !Accounted(Exec(st, more))
    decreases Rest(st.lives[l].pc)
  {
    var a := LastStep(st.lives[l].pc, l);
    if st.lives[l].pc.Finished? {
      LandsUnaccounted(st, l);
      more := [a];
      assert more[1..] == [];
      assert Exec(st, more) == Exec(Next(st, a), []);
    } else {
      TableNext(st, a);
      StaysUnwatched(st, l);
      var rest := LateWrite(Next(st, a), l);
      more := [a] + rest;
      assert more[0] == a && more[1..] == rest;
    }
  }

  // ---------------------------------------------------------------- which steps leave a write unwatched

  /** Revalidation gives up the quarantine of a session while a manifest of it is being written. */
  predicate Forgets(st: State, session: Session, find: Find, dead: bool) {
    session in st.quarantined && session !in Revalidate(st, session, find, dead).0.quarantined
    && exists m | m in st.writes :: m in st.lives && st.lives[m].session == session
  }

  predicate InUse(pc: LeasePc) {
    pc.Using? || pc == Closing(true)
  }

  /** The cleanup of a capsule in use removes a manifest that is being written, or such a capsule begins a
      write after its cleanup has done so; a lease without a capsule finds its manifest gone, or dead, that
      is being written; or revalidation forgets one. */
  predicate Disturbs(st: State, a: Action) {
    match a
    case CleanCapsule(l, result, _) =>
      l in st.writes && l in st.lives && InUse(st.lives[l].pc) && st.lives[l].cleaned.None? && !result.FailedResidual?
    case BeginWrite(l) => l in st.lives && InUse(st.lives[l].pc) && CleanedWell(st.lives[l])
    case CloseMissing(l, find, dead) =>
      l in st.writes && At(st, l, Closing(false)) && Truthful(st, st.lives[l].session, find)
      && (find.NotFound? || (find.Found? && dead))
    case Validate(l, find, dead) =>
      At(st, l, Validating) && Truthful(st, st.lives[l].session, find) && Forgets(st, st.lives[l].session, find, dead)
    case Check(id, session, find, dead) =>
      id in st.neutralizations && st.neutralizations[id].pc.Preflight? && session in st.neutralizations[id].pc.todo
      && Truthful(st, session, find) && Forgets(st, session, find, dead)
    case _ => false
  }

  /** Only the watch over one lease, or over the leases of one session, can change. */
  predicate SameWatch(st: State, t: State, l: Id) {
    l in st.writes && l in st.lives ==> l in t.lives && (Watched(t, l) <==> Watched(st, l))
  }

  lemma QuietSame(st: State, t: State)
    requires Table(st) && t.writes == st.writes && forall l :: SameWatch(st, t, l)
    ensures Quiet(t) <==> Quiet(st)
  {
    forall l | l in st.writes ensures Watched(t, l) <==> Watched(st, l) {
      assert SameWatch(st, t, l);
    }
  }

  lemma QuietClean(st: State, l: Id, result: Cleanup, written: bool)
    requires Table(st) && Files(st) && Quiet(st)
    ensures Quiet(NextLease(st, CleanCapsule(l, result, written))) <==> !Disturbs(st, CleanCapsule(l, result, written))
  {
    if l in st.lives && HasCapsule(st.lives[l].pc) && st.lives[l].cleaned.None? {
      var t := CleanStep(st, l, result, written);
      assert LifeAt(st, l);
      forall k | k in st.writes && k != l ensures Watched(t, k) { assert Watched(st, k); }
      assert l in st.writes ==> (Watched(t, l) <==> !InUse(st.lives[l].pc) || result.FailedResidual?);
    }
  }

  lemma QuietBegin(st: State, l: Id)
    requires Table(st) && Quiet(st)
    ensures Quiet(NextLease(st, BeginWrite(l))) <==> !Disturbs(st, BeginWrite(l))
  {
    if l in st.lives && HasCapsule(st.lives[l].pc) {
      var t := st.(writes := st.writes + multiset{l});
      assert LifeAt(st, l);
      forall k | k in st.writes && k != l ensures Watched(t, k) { assert Watched(st, k); }
      assert l in t.writes && (Watched(t, l) <==> !(InUse(st.lives[l].pc) && CleanedWell(st.lives[l])));
    }
  }

  lemma QuietCloseMissing(st: State, l: Id, find: Find, dead: bool)
    requires Table(st) && Files(st) && Quiet(st)
    ensures Quiet(NextLease(st, CloseMissing(l, find, dead))) <==> !Disturbs(st, CloseMissing(l, find, dead))
  {
    var t := NextLease(st, CloseMissing(l, find, dead));
    if At(st, l, Closing(false)) && Truthful(st, st.lives[l].session, find) {
      assert WriteAt(st, l, l);
      forall k | k in st.writes && k != l ensures Watched(t, k) { assert Watched(st, k); }
      assert l in st.writes ==> (Watched(t, l) <==> t.lives[l].pc.result.FailedResidual?);
    }
  }

  lemma QuietRevalidate(st: State, session: Session, find: Find, dead: bool)
    requires Table(st) && Files(st) && Quiet(st)
    ensures Quiet(Revalidate(st, session, find, dead).0) <==> !Forgets(st, session, find, dead)
  {
    RevalidateMoves(st, session, find, dead);
    var t := Revalidate(st, session, find, dead).0;
    assert forall s | s in st.quarantined && s != session :: s in t.quarantined;
    if Forgets(st, session, find, dead) {
      var m :| m in st.writes && m in st.lives && st.lives[m].session == session;
      assert WriteAt(st, m, m);
      assert m in t.writes && !Watched(t, m);
    } else {
      forall k | k in t.writes ensures Watched(t, k) { assert Watched(st, k); }
    }
  }

  lemma QuietValidate(st: State, l: Id, find: Find, dead: bool)
    requires Table(st) && Files(st) && Quiet(st)
    ensures Quiet(NextLease(st, Validate(l, find, dead))) <==> !Disturbs(st, Validate(l, find, dead))
  {
    if At(st, l, Validating) && Truthful(st, st.lives[l].session, find) {
      var (t, blocked) := Revalidate(st, st.lives[l].session, find, dead);
      QuietRevalidate(st, st.lives[l].session, find, dead);
      RevalidateMoves(st, st.lives[l].session, find, dead);
      RevalidateTable(st, st.lives[l].session, find, dead);
      var n := SetPc(t, l, if blocked then Closing(false) else Opening);
      forall k ensures SameWatch(t, n, k) { assert WriteAt(st, k, k); }
      QuietSame(t, n);
    }
  }

  lemma QuietCheck(st: State, a: Action)
    requires Table(st) && Files(st) && Quiet(st) && a.Check?
    ensures Quiet(NextNeutralization(st, a)) <==> !Disturbs(st, a)
  {
    var n := NextNeutralization(st, a);
    if a.id in st.neutralizations && st.neutralizations[a.id].pc.Preflight?
       && a.session in st.neutralizations[a.id].pc.todo && Truthful(st, a.session, a.find) {
      var t := Revalidate(st, a.session, a.find, a.dead).0;
      QuietRevalidate(st, a.session, a.find, a.dead);
      RevalidateMoves(st, a.session, a.find, a.dead);
      RevalidateTable(st, a.session, a.find, a.dead);
      forall k ensures SameWatch(t, n, k) {}
      QuietSame(t, n);
    }
  }

  lemma QuietAcquire(st: State, session: Session, l: Id)
    requires Table(st) && Quiet(st) && l !in st.lives
    ensures Quiet(AcquireStep(st, session, l))
  {
    var t := AcquireStep(st, session, l);
    forall k | k in t.writes ensures Watched(t, k) { assert Watched(st, k); }
  }

  lemma QuietMove(st: State, a: Action)
    requires Table(st) && Quiet(st) && Moving(a)
    ensures Quiet(MoveStep(st, a))
  {
    var t := MoveStep(st, a);
    forall k | k in t.writes ensures Watched(t, k) { assert Watched(st, k); }
  }

  /** Of an invariant state in which every write is watched, exactly these steps lead to one that is not. */
  lemma QuietNext(st: State, a: Action)
    requires Table(st) && Files(st) && Quiet(st)
    ensures Quiet(Next(st, a)) <==> !Disturbs(st, a)
  {
    match a {
      case Acquire(session, l) => if l !in st.lives { QuietAcquire(st, session, l); }
      case Validate(l, find, dead) => QuietValidate(st, l, find, dead);
      case StartCapsule(l) => QuietMove(st, a);
      case BeginWrite(l) => QuietBegin(st, l);
      case CleanCapsule(l, result, written) => QuietClean(st, l, result, written);
      case Opened(l) => QuietMove(st, a);
      case CloseMissing(l, find, dead) => QuietCloseMissing(st, l, find, dead);
      case Check(_, _, _, _) => QuietCheck(st, a);
      case _ => QuietElse(st, a);
    }
  }

  lemma QuietElse(st: State, a: Action)
    requires Quiet(st)
    requires Finishing(a) || (!OfLease(a) && !a.Check?)
    ensures Quiet(Next(st, a))
  {
    if Finishing(a) {
      FinishingQuiet(st, a);
    } else {
      OthersSpareFiles(st, a);
      var t := Next(st, a);
      forall k | k in t.writes ensures Watched(t, k) { assert Watched(st, k); }
    }
  }

  /** No step of the run disturbs a write. */
  ghost predicate Undisturbed(init: State, run: seq<Action>, n: nat)
    requires n <= |run|
  {
    forall k | 0 <= k < n :: !Disturbs(Exec(init, run[..k]), run[k])
  }

  lemma {:induction false} QuietIffUndisturbed(init: State, run: seq<Action>, n: nat)
    requires Initial(init) && n <= |run|
    ensures QuietUpTo(init, run, n + 1) <==> Undisturbed(init, run, n)
  {
    if n == 0 {
      TableInit(init);
    } else {
      QuietIffUndisturbed(init, run, n - 1);
      if QuietUpTo(init, run, n) {
        InvPrefix(init, run, n - 1);
        ExecSnoc(init, run, n - 1);
        QuietNext(Exec(init, run[..n - 1]), run[n - 1]);
      }
    }
  }

  /** After every prefix of a run, and however the writes and the leases it has begun then end, each
      manifest is accounted for, if and only if no step of the run disturbs a write. */
  lemma ManifestsAccountedFor(init: State, run: seq<Action>)
    requires Initial(init)
    ensures Undisturbed(init, run, |run|)
       <==> (forall k, more | 0 <= k <= |run| && Finishes(more) :: Accounted(Exec(Exec(init, run[..k]), more)))
  {
    QuietIffUndisturbed(init, run, |run|);
    if QuietUpTo(init, run, |run| + 1) {
      forall k, more | 0 <= k <= |run| && Finishes(more) ensures Accounted(Exec(Exec(init, run[..k]), more)) {
        InvPrefix(init, run, k);
        FinishesAccounted(Exec(init, run[..k]), more);
      }
    } else {
      var n :| 0 <= n <= |run| && !Quiet(Exec(init, run[..n]));
      TableExec(init, run[..n]);
      var l :| l in Exec(init, run[..n]).writes && !Watched(Exec(init, run[..n]), l);
      var more := LateWrite(Exec(init, run[..n]), l);
      assert !Accounted(Exec(Exec(init, run[..n]), more));
    }
  }

  /** From its use to its cleanup a capsule has its manifest on disk. */
  lemma InUseOnDisk(init: State, run: seq<Action>, l: Id)
    requires Initial(init) && Undisturbed(init, run, |run|) && At(Exec(init, run), l, Using)
    requires Exec(init, run).lives[l].cleaned.None?
    ensures l in Exec(init, run).disk && Exec(init, run).disk[l] == Exec(init, run).lives[l].session
  {
    assert run[..|run|] == run;
    QuietIffUndisturbed(init, run, |run|);
    InvPrefix(init, run, |run|);
    assert FileAt(Exec(init, run), l);
  }

  /** A supervisor with nothing quarantined and nothing neutralized. */
  function Calm(leases: map<Session, Id>, disk: map<Id, Session>, writes: multiset<Id>, lives: map<Id, Lease>): State {
    State(leases, {}, map[], false, disk, writes, lives, map[], NotAsked)
  }

  const EMPTY := Calm(map[], map[], multiset{}, map[])

  lemma Then(init: State, run: seq<Action>, st: State, a: Action, t: State)
    requires Exec(init, run) == st && Next(st, a) == t
    ensures Exec(init, run + [a]) == t
  {
    ExecAppend(init, run, [a]);
    assert [a][1..] == [];
    assert Exec(st, [a]) == Exec(t, []);
  }

  lemma AcquireThen(run: seq<Action>, disk: map<Id, Session>, lives: map<Id, Lease>, session: Session, l: Id)
    requires Exec(EMPTY, run) == Calm(map[], disk, multiset{}, lives) && l !in lives && l !in disk
    ensures Exec(EMPTY, run + [Acquire(session, l)])
         == Calm(map[session := l], disk, multiset{}, lives[l := Lease(session, Validating, None)])
  {
    var t := Calm(map[session := l], disk, multiset{}, lives[l := Lease(session, Validating, None)]);
    Then(EMPTY, run, Calm(map[], disk, multiset{}, lives), Acquire(session, l), t);
  }

  /** Moving on the one lease of a calm supervisor. */
  lemma MoveThen(run: seq<Action>, st: State, l: Id, a: Action, pc: LeasePc)
    requires Exec(EMPTY, run) == st && l in st.lives && Next(st, a) == SetPc(st, l, pc)
    ensures Exec(EMPTY, run + [a]) == st.(lives := st.lives[l := st.lives[l].(pc := pc)])
  {
    Then(EMPTY, run, st, a, SetPc(st, l, pc));
  }

  lemma BeginThen(run: seq<Action>, st: State, l: Id)
    requires Exec(EMPTY, run) == st && l in st.lives && HasCapsule(st.lives[l].pc) && st.writes == multiset{}
    ensures Exec(EMPTY, run + [BeginWrite(l)]) == st.(writes := multiset{l})
  {
    assert multiset{} + multiset{l} == multiset{l};
    Then(EMPTY, run, st, BeginWrite(l), st.(writes := multiset{l}));
  }

  lemma LandThen(run: seq<Action>, st: State, l: Id)
    requires Exec(EMPTY, run) == st && l in st.lives && st.writes == multiset{l}
    ensures Exec(EMPTY, run + [EndWrite(l, true)])
         == st.(writes := multiset{}, disk := st.disk[l := st.lives[l].session])
  {
    var t := st.(writes := multiset{}, disk := st.disk[l := st.lives[l].session]);
    assert multiset{l} - multiset{l} == multiset{};
    Then(EMPTY, run, st, EndWrite(l, true), t);
  }

  /** A lease of `session` is admitted, its capsule started and its manifest written. */
  lemma Started(run: seq<Action>, disk: map<Id, Session>, lives: map<Id, Lease>, session: Session, l: Id)
      returns (longer: seq<Action>)
    requires Exec(EMPTY, run) == Calm(map[], disk, multiset{}, lives) && l !in lives && l !in disk
    ensures Exec(EMPTY, longer)
         == Calm(map[session := l], disk[l := session], multiset{}, lives[l := Lease(session, Starting, None)])
  {
    longer := Entered(run, disk, lives, session, l);
    var s := Calm(map[session := l], disk, multiset{}, lives[l := Lease(session, Starting, None)]);
    BeginThen(longer, s, l);
    longer := longer + [BeginWrite(l)];
    LandThen(longer, s.(writes := multiset{l}), l);
    longer := longer + [EndWrite(l, true)];
  }

  lemma Entered(run: seq<Action>, disk: map<Id, Session>, lives: map<Id, Lease>, session: Session, l: Id)
      returns (longer: seq<Action>)
    requires Exec(EMPTY, run) == Calm(map[], disk, multiset{}, lives) && l !in lives && l !in disk
    ensures Exec(EMPTY, longer)
         == Calm(map[session := l], disk, multiset{}, lives[l := Lease(session, Starting, None)])
  {
    AcquireThen(run, disk, lives, session, l);
    var s := Calm(map[session := l], disk, multiset{}, lives[l := Lease(session, Validating, None)]);
    longer := run + [Acquire(session, l)];
    MoveThen(longer, s, l, Validate(l, Unreadable, false), Opening);
    var o := s.(lives := s.lives[l := Lease(session, Opening, None)]);
    longer := longer + [Validate(l, Unreadable, false)];
    MoveThen(longer, o, l, StartCapsule(l), Starting);
    longer := longer + [StartCapsule(l)];
    assert o.lives[l := Lease(session, Starting, None)] == lives[l := Lease(session, Starting, None)];
  }

  lemma Used() returns (run: seq<Action>)
    ensures Exec(EMPTY, run) == Calm(map["s" := 0], map[0 := "s"], multiset{}, map[0 := Lease("s", Using, None)])
  {
    run := Started([], map[], map[], "s", 0);
    assert map[][0 := "s"] == map[0 := "s"];
    assert map[][0 := Lease("s", Starting, None)] == map[0 := Lease("s", Starting, None)];
    var s := Calm(map["s" := 0], map[0 := "s"], multiset{}, map[0 := Lease("s", Starting, None)]);
    MoveThen(run, s, 0, Opened(0), Using);
    assert s.lives[0 := s.lives[0].(pc := Using)] == map[0 := Lease("s", Using, None)];
    run := run + [Opened(0)];
  }

  /** The capsule is used, and as the lease is left another write is begun. */
  lemma Leaving() returns (run: seq<Action>)
    ensures Exec(EMPTY, run)
         == Calm(map["s" := 0], map[0 := "s"], multiset{0}, map[0 := Lease("s", Closing(true), None)])
  {
    run := Used();
    var u := Calm(map["s" := 0], map[0 := "s"], multiset{}, map[0 := Lease("s", Using, None)]);
    MoveThen(run, u, 0, Leave(0), Closing(true));
    var c := u.(lives := map[0 := Lease("s", Closing(true), None)]);
    assert u.lives[0 := u.lives[0].(pc := Closing(true))] == c.lives;
    run := run + [Leave(0)];
    BeginThen(run, c, 0);
    run := run + [BeginWrite(0)];
  }

  /** The cleanup ends well although the write is still under way. */
  lemma Cleaned() returns (run: seq<Action>)
    ensures Exec(EMPTY, run)
         == Calm(map["s" := 0], map[], multiset{0}, map[0 := Lease("s", Closing(true), Some(Clean))])
  {
    run := Leaving();
    var s := Calm(map["s" := 0], map[0 := "s"], multiset{0}, map[0 := Lease("s", Closing(true), None)]);
    var t := Calm(map["s" := 0], map[], multiset{0}, map[0 := Lease("s", Closing(true), Some(Clean))]);
    assert s.disk - {0} == t.disk && s.lives[0 := s.lives[0].(cleaned := Some(Clean))] == t.lives;
    Then(EMPTY, run, s, CleanCapsule(0, Clean, false), t);
    run := run + [CleanCapsule(0, Clean, false)];
  }

  lemma ClosedCapsule() returns (run: seq<Action>)
    ensures Exec(EMPTY, run)
         == Calm(map["s" := 0], map[], multiset{0}, map[0 := Lease("s", Closed(Clean), Some(Clean))])
  {
    run := Cleaned();
    var s := Calm(map["s" := 0], map[], multiset{0}, map[0 := Lease("s", Closing(true), Some(Clean))]);
    MoveThen(run, s, 0, CloseCapsule(0), Closed(Clean));
    assert s.lives[0 := s.lives[0].(pc := Closed(Clean))] == map[0 := Lease("s", Closed(Clean), Some(Clean))];
    run := run + [CloseCapsule(0)];
  }

  lemma SettleThen(run: seq<Action>, c: State)
    requires c == Calm(map["s" := 0], map[], multiset{0}, map[0 := Lease("s", Closed(Clean), Some(Clean))])
    requires Exec(EMPTY, run) == c
    ensures Exec(EMPTY, run + [Settle(0)])
         == Calm(map[], map[], multiset{0}, map[0 := Lease("s", Finished(Clean), Some(Clean))])
  {
    var t := Calm(map[], map[], multiset{0}, map[0 := Lease("s", Finished(Clean), Some(Clean))]);
    assert c.leases - {"s"} == t.leases && c.lives[0 := c.lives[0].(pc := Finished(Clean))] == t.lives;
    Then(EMPTY, run, c, Settle(0), t);
  }

  lemma GivenUp() returns (run: seq<Action>)
    ensures Exec(EMPTY, run) == Calm(map[], map[], multiset{0}, map[0 := Lease("s", Finished(Clean), Some(Clean))])
  {
    run := ClosedCapsule();
    SettleThen(run, Calm(map["s" := 0], map[], multiset{0}, map[0 := Lease("s", Closed(Clean), Some(Clean))]));
    run := run + [Settle(0)];
  }

  /** Such a run: every action begun has ended, and a manifest belongs to a session that is neither
      leased nor quarantined; the next lease of the session then gives it a second manifest. */
  lemma LateWriteRun() returns (run: seq<Action>, further: seq<Action>)
    ensures Initial(EMPTY)
    ensures var st := Exec(EMPTY, run);
            st.disk == map[0 := "s"] && st.leases == map[] && st.quarantined == map[] && st.writes == multiset{}
    ensures var st := Exec(EMPTY, further); 0 in st.disk && 1 in st.disk && st.disk[0] == st.disk[1]
  {
    run := GivenUp();
    var lives := map[0 := Lease("s", Finished(Clean), Some(Clean))];
    LandThen(run, Calm(map[], map[], multiset{0}, lives), 0);
    assert map[][0 := "s"] == map[0 := "s"];
    run := run + [EndWrite(0, true)];
    further := Started(run, map[0 := "s"], lives, "s", 1);
  }

  /** Two leases in use are of two sessions, and neither session is quarantined. */
  lemma LeasesExclusive(init: State, run: seq<Action>, k: Id, l: Id)
    requires Initial(init)
    requires var st := Exec(init, run); k != l && At(st, k, Using) && At(st, l, Using)
    ensures var st := Exec(init, run);
            st.lives[k].session != st.lives[l].session && st.lives[k].session !in st.quarantined
  {
    TableExec(init, run);
    var st := Exec(init, run);
    assert LifeAt(st, k) && LifeAt(st, l);
  }

  predicate Active(st: State, n: Id) {
    n in st.neutralizations && !st.neutralizations[n].pc.Over?
  }

  predicate Committed(st: State, n: Id) {
    n in st.neutralizations && st.neutralizations[n].pc == Ending(true)
  }

  /** From its commit until its marks are cleared none of a neutralization's sessions is leased, they
      all stay marked, and no neutralization it overlaps is active. */
  lemma NeutralizationExclusive(init: State, run: seq<Action>, n: Id)
    requires Initial(init) && Active(Exec(init, run), n)
    ensures var st := Exec(init, run);
            && st.neutralizations[n].sessions <= st.neutralizing
            && (Committed(st, n) ==> forall s | s in st.neutralizations[n].sessions :: s !in st.leases)
            && (forall m | m != n && Active(st, m) :: st.neutralizations[m].sessions !! st.neutralizations[n].sessions)
  {
    TableExec(init, run);
    var st := Exec(init, run);
    assert NeutralizationAt(st, n);
    forall m | m != n && Active(st, m) ensures st.neutralizations[m].sessions !! st.neutralizations[n].sessions {
      assert NeutralizationPair(st, m, n);
    }
  }

  // ---------------------------------------------------------------- what a neutralization has to pass

  predicate InPreflight(st: State, n: Id, s: Session) {
    n in st.neutralizations && st.neutralizations[n].pc.Preflight? && s in st.neutralizations[n].pc.todo
  }

  /** A neutralization that has been refused, or is over without being committed. */
  predicate Refused(st: State, n: Id) {
    n in st.neutralizations && (st.neutralizations[n].pc == Ending(false) || st.neutralizations[n].pc.Over?)
  }

  lemma LeaseSparesNeutralizations(st: State, a: Action)
    requires OfLease(a)
    ensures NextLease(st, a).neutralizations == st.neutralizations
  {
    if a.Validate? && a.lease in st.lives {
      RevalidateMoves(st, st.lives[a.lease].session, a.find, a.dead);
    }
  }

  /** Only its own actions move a neutralization that exists. */
  lemma OnlyOwnMoves(st: State, a: Action, n: Id)
    requires n in st.neutralizations
    requires OfLease(a) || a.BeginShutdown? || a.JoinShutdown? || a.EndShutdown? || a.id != n
    ensures n in Next(st, a).neutralizations && Next(st, a).neutralizations[n] == st.neutralizations[n]
  {
    if OfLease(a) {
      LeaseSparesNeutralizations(st, a);
    } else if a.Check? {
      RevalidateMoves(st, a.session, a.find, a.dead);
    }
  }

  lemma RefusedNext(st: State, a: Action, n: Id)
    requires Refused(st, n)
    ensures Refused(Next(st, a), n)
  {
    if OfLease(a) || a.BeginShutdown? || a.JoinShutdown? || a.EndShutdown? || a.id != n {
      OnlyOwnMoves(st, a, n);
    }
  }

  lemma {:induction false} RefusedStays(st: State, run: seq<Action>, n: Id)
    requires Refused(st, n)
    ensures Refused(Exec(st, run), n)
    decreases |run|
  {
    if run != [] {
      RefusedNext(st, run[0], n);
      RefusedStays(Next(st, run[0]), run[1..], n);
    }
  }

  /** A neutralization whose preflight finds a session still quarantined is never committed. */
  lemma QuarantineRefuses(init: State, run: seq<Action>, a: Action, more: seq<Action>)
    requires Initial(init) && a.Check? && InPreflight(Exec(init, run), a.id, a.session)
    requires Truthful(Exec(init, run), a.session, a.find) && a.session in Exec(init, run + [a]).quarantined
    ensures !Committed(Exec(init, run + [a] + more), a.id)
  {
    var st := Exec(init, run);
    assert (run + [a])[..|run|] == run && (run + [a])[..|run| + 1] == run + [a];
    ExecSnoc(init, run + [a], |run|);
    ExecAppend(init, run + [a], more);
    RevalidateMoves(st, a.session, a.find, a.dead);
    assert Refused(Next(st, a), a.id);
    RefusedStays(Next(st, a), more, a.id);
  }

  /** At its k-th step the run checks the session for the neutralization and finds it not quarantined. */
  predicate PassesAt(init: State, run: seq<Action>, k: nat, n: Id, s: Session)
    requires k < |run|
  {
    && run[k].Check? && run[k].id == n && run[k].session == s
    && InPreflight(Exec(init, run[..k]), n, s) && s !in Exec(init, run[..k + 1]).quarantined
  }

  /** The neutralization has gone on from its check of the session. */
  predicate PastCheck(st: State, n: Id, s: Session) {
    n in st.neutralizations && s in st.neutralizations[n].sessions &&
    match st.neutralizations[n].pc
    case Preflight(todo) => s !in todo
    case Draining(_) => true
    case Ending(committed) => committed
    case Over => false
  }

  /** A neutralization gets past a check only by it, and only if the session is not quarantined then. */
  lemma CheckNext(st: State, a: Action, n: Id, s: Session)
    requires PastCheck(Next(st, a), n, s)
    ensures PastCheck(st, n, s)
         || (a.Check? && a.id == n && a.session == s && InPreflight(st, n, s) && s !in Next(st, a).quarantined)
  {
    if n !in st.neutralizations {
      NewIsUnchecked(st, a, n);
    } else if OfLease(a) || a.BeginShutdown? || a.JoinShutdown? || a.EndShutdown? || a.id != n {
      OnlyOwnMoves(st, a, n);
    } else if a.Check? {
      OwnCheckNext(st, a, s);
    }
  }

  lemma OwnCheckNext(st: State, a: Action, s: Session)
    requires a.Check? && a.id in st.neutralizations && PastCheck(NextNeutralization(st, a), a.id, s)
    ensures PastCheck(st, a.id, s)
         || (a.session == s && InPreflight(st, a.id, s) && s !in NextNeutralization(st, a).quarantined)
  {
    RevalidateMoves(st, a.session, a.find, a.dead);
    var n := st.neutralizations[a.id];
    if n.pc.Preflight? {
      assert forall x | x in n.pc.todo && x != a.session :: x in n.pc.todo - {a.session};
    }
  }

  lemma NewIsUnchecked(st: State, a: Action, n: Id)
    requires n !in st.neutralizations && n in Next(st, a).neutralizations
    ensures forall s :: !PastCheck(Next(st, a), n, s)
  {
    if OfLease(a) {
      LeaseSparesNeutralizations(st, a);
    } else if a.Check? {
      RevalidateMoves(st, a.session, a.find, a.dead);
    }
  }

  lemma {:induction false} PastCheckPassed(init: State, run: seq<Action>, n: Id, s: Session) returns (k: nat)
    requires Initial(init) && PastCheck(Exec(init, run), n, s)
    ensures k < |run| && PassesAt(init, run, k, n, s)
    decreases |run|
  {
    assert run != [];
    var m := |run| - 1;
    ExecSnoc(init, run, m);
    assert run[..m + 1] == run;
    CheckNext(Exec(init, run[..m]), run[m], n, s);
    if PastCheck(Exec(init, run[..m]), n, s) {
      k := PastCheckPassed(init, run[..m], n, s);
      assert run[..m][..k] == run[..k] && run[..m][..k + 1] == run[..k + 1];
    } else {
      k := m;
    }
  }

  /** A committed neutralization has checked each of its sessions, and found it not quarantined then. */
  lemma CommittedChecked(init: State, run: seq<Action>, n: Id, s: Session) returns (k: nat)
    requires Initial(init) && Committed(Exec(init, run), n) && s in Exec(init, run).neutralizations[n].sessions
    ensures k < |run| && PassesAt(init, run, k, n, s)
  {
    k := PastCheckPassed(init, run, n, s);
  }

  /** The lease of the session that a neutralization waits for has ended, with its tree dead and no error. */
  predicate DrainedCleanly(st: State, n: Id, s: Session) {
    n in st.neutralizations && st.neutralizations[n].pc.Draining? && s in st.neutralizations[n].pc.drains &&
    match st.neutralizations[n].pc.drains[s]
    case Unseen => s !in st.leases
    case Waiting(l) => l in st.lives && st.lives[l].session == s && st.lives[l].pc == Finished(Clean)
    case Drained(_) => false
  }

  predicate PastDrain(st: State, n: Id, s: Session) {
    n in st.neutralizations && s in st.neutralizations[n].sessions &&
    match st.neutralizations[n].pc
    case Draining(drains) => s in drains && drains[s] == Drained(true)
    case Ending(committed) => committed
    case _ => false
  }

  lemma DrainNext(st: State, a: Action, n: Id, s: Session)
    requires Table(st) && PastDrain(Next(st, a), n, s)
    ensures PastDrain(st, n, s) || (a == DrainSession(n, s) && DrainedCleanly(st, n, s))
  {
    if n !in st.neutralizations {
      NewIsUndrained(st, a, n);
    } else if OfLease(a) || a.BeginShutdown? || a.JoinShutdown? || a.EndShutdown? || a.id != n {
      OnlyOwnMoves(st, a, n);
    } else if a.Check? {
      RevalidateMoves(st, a.session, a.find, a.dead);
    } else if a.DrainSession? {
      assert DrainAt(st, n, s);
    } else if a.Commit? {
      assert NeutralizationAt(st, n);
    }
  }

  lemma NewIsUndrained(st: State, a: Action, n: Id)
    requires n !in st.neutralizations && n in Next(st, a).neutralizations
    ensures forall s :: !PastDrain(Next(st, a), n, s)
  {
    if OfLease(a) {
      LeaseSparesNeutralizations(st, a);
    } else if a.Check? {
      RevalidateMoves(st, a.session, a.find, a.dead);
    }
  }

  lemma {:induction false} PastDrainDrained(init: State, run: seq<Action>, n: Id, s: Session) returns (k: nat)
    requires Initial(init) && PastDrain(Exec(init, run), n, s)
    ensures k < |run| && run[k] == DrainSession(n, s) && DrainedCleanly(Exec(init, run[..k]), n, s)
    decreases |run|
  {
    assert run != [];
    var m := |run| - 1;
    ExecSnoc(init, run, m);
    assert run[..m + 1] == run;
    TableExec(init, run[..m]);
    DrainNext(Exec(init, run[..m]), run[m], n, s);
    if PastDrain(Exec(init, run[..m]), n, s) {
      k := PastDrainDrained(init, run[..m], n, s);
      assert run[..m][..k] == run[..k];
    } else {
      k := m;
    }
  }

  /** And it has drained each of its sessions: none was leased, or the lease had ended cleanly. */
  lemma CommittedDrained(init: State, run: seq<Action>, n: Id, s: Session) returns (k: nat)
    requires Initial(init) && Committed(Exec(init, run), n) && s in Exec(init, run).neutralizations[n].sessions
    ensures k < |run| && run[k] == DrainSession(n, s) && DrainedCleanly(Exec(init, run[..k]), n, s)
  {
    k := PastDrainDrained(init, run, n, s);
  }

  lemma CompleteStep(st: State, a: Action)
    requires st.shutdown.Complete?
    ensures Next(st, a).shutdown.Complete?
  {
    if OfLease(a) {
      LeaseSparesShutdown(st, a);
    }
  }

  lemma LeaseSparesShutdown(st: State, a: Action)
    requires OfLease(a)
    ensures NextLease(st, a).shutdown == st.shutdown
  {
    if a.Validate? {
      ValidateSparesShutdown(st, a.lease, a.find, a.dead);
    } else if a.CloseMissing? {
      CloseMissingSparesShutdown(st, a.lease, a.find, a.dead);
    }
  }

  lemma ValidateSparesShutdown(st: State, l: Id, find: Find, dead: bool)
    ensures NextLease(st, Validate(l, find, dead)).shutdown == st.shutdown
  {
    if l in st.lives {
      RevalidateMoves(st, st.lives[l].session, find, dead);
    }
  }

  lemma CloseMissingSparesShutdown(st: State, l: Id, find: Find, dead: bool)
    ensures NextLease(st, CloseMissing(l, find, dead)).shutdown == st.shutdown
  {
  }

  lemma {:induction false} CompleteStays(st: State, run: seq<Action>)
    requires st.shutdown.Complete?
    ensures Exec(st, run).shutdown.Complete?
    decreases |run|
  {
    if run != [] {
      CompleteStep(st, run[0]);
      CompleteStays(Next(st, run[0]), run[1..]);
    }
  }

  lemma OnlyRevalidates(st: State, a: Action)
    requires a.Check? && a.id in st.neutralizations
    ensures var t := NextNeutralization(st, a);
            t.closed == st.closed && t.lives == st.lives && t.neutralizations.Keys == st.neutralizations.Keys
  {
    RevalidateMoves(st, a.session, a.find, a.dead);
  }

  predicate StartsNone(st: State, t: State) {
    t.closed && t.lives.Keys == st.lives.Keys
  }

  lemma ValidateStartsNone(st: State, l: Id, find: Find, dead: bool)
    requires st.closed && l in st.lives
    ensures StartsNone(st, NextLease(st, Validate(l, find, dead)))
  {
    RevalidateMoves(st, st.lives[l].session, find, dead);
  }

  lemma CloseMissingStartsNone(st: State, l: Id, find: Find, dead: bool)
    requires st.closed
    ensures StartsNone(st, NextLease(st, CloseMissing(l, find, dead)))
  {
  }

  lemma SettleStartsNone(st: State, l: Id)
    requires st.closed && l in st.lives && st.lives[l].pc.Closed?
    ensures StartsNone(st, SettleStep(st, l))
  {
  }

  lemma LeaseStartsNothing(st: State, a: Action)
    requires st.closed && OfLease(a)
    ensures StartsNone(st, NextLease(st, a)) && NextLease(st, a).neutralizations == st.neutralizations
  {
    LeaseSparesNeutralizations(st, a);
    match a
    case Acquire(session, lease) =>
    case Validate(lease, find, dead) =>
      if lease in st.lives {
        ValidateStartsNone(st, lease, find, dead);
      }
    case CloseMissing(lease, find, dead) => CloseMissingStartsNone(st, lease, find, dead);
    case Settle(lease) =>
      if lease in st.lives && st.lives[lease].pc.Closed? {
        SettleStartsNone(st, lease);
      }
    case BeginWrite(_) =>
    case EndWrite(_, _) =>
    case CleanCapsule(_, _, _) =>
    case _ => assert NextLease(st, a) == MoveStep(st, a);
  }

  lemma ClosedNext(st: State, a: Action)
    requires st.closed
    ensures var t := Next(st, a);
            t.closed && t.lives.Keys == st.lives.Keys && t.neutralizations.Keys == st.neutralizations.Keys
  {
    if OfLease(a) {
      LeaseStartsNothing(st, a);
    } else if a.Check? && a.id in st.neutralizations {
      OnlyRevalidates(st, a);
    }
  }

  /** From the moment shutdown has begun, no lease and no neutralization starts. */
  lemma {:induction false} ClosedStartsNothing(st: State, run: seq<Action>)
    requires st.closed
    ensures var t := Exec(st, run);
            t.closed && t.lives.Keys == st.lives.Keys && t.neutralizations.Keys == st.neutralizations.Keys
    decreases |run|
  {
    if run != [] {
      ClosedNext(st, run[0]);
      ClosedStartsNothing(Next(st, run[0]), run[1..]);
    }
  }

  /** Every lease has finished, and every neutralization is over. */
  predicate AtRest(st: State) {
    && (forall l | l in st.lives :: st.lives[l].pc.Finished?)
    && (forall n | n in st.neutralizations :: st.neutralizations[n].pc.Over?)
  }

  lemma MoveRests(st: State, a: Action)
    requires Moving(a) && (a.lease in st.lives ==> st.lives[a.lease].pc.Finished?)
    ensures MoveStep(st, a).lives == st.lives
  {
  }

  /** A lease that has finished is not moved. */
  lemma FinishedRests(st: State, a: Action)
    requires OfLease(a) && !a.Acquire? && (a.lease in st.lives ==> st.lives[a.lease].pc.Finished?)
    ensures NextLease(st, a).lives == st.lives
  {
    match a
    case Validate(lease, _, _) => assert !At(st, lease, Validating);
    case CloseMissing(lease, _, _) => assert !At(st, lease, Closing(false));
    case Settle(_) =>
    case BeginWrite(_) =>
    case EndWrite(_, _) =>
    case CleanCapsule(_, _, _) =>
    case _ => MoveRests(st, a);
  }

  lemma RestNext(st: State, a: Action)
    requires st.closed && AtRest(st)
    ensures Next(st, a).closed && AtRest(Next(st, a))
  {
    ClosedNext(st, a);
    if OfLease(a) {
      LeaseSparesNeutralizations(st, a);
      if !a.Acquire? {
        FinishedRests(st, a);
      }
    }
  }

  lemma CompleteRests(st: State, a: Action)
    requires Next(st, a).shutdown.Complete? && !st.shutdown.Complete?
    ensures AtRest(Next(st, a))
  {
    if OfLease(a) {
      LeaseSparesShutdown(st, a);
    } else if a.Check? && a.id in st.neutralizations {
      RevalidateMoves(st, a.session, a.find, a.dead);
    }
  }

  lemma {:induction false} RestsOnceComplete(st: State, run: seq<Action>)
    requires Table(st) && Exec(st, run).shutdown.Complete? && (st.shutdown.Complete? ==> AtRest(st))
    ensures AtRest(Exec(st, run))
    decreases |run|
  {
    if run != [] {
      TableNext(st, run[0]);
      assert ShutdownAt(st, "");
      if st.shutdown.Complete? {
        RestNext(st, run[0]);
      } else if Next(st, run[0]).shutdown.Complete? {
        CompleteRests(st, run[0]);
      }
      RestsOnceComplete(Next(st, run[0]), run[1..]);
    }
  }

  /** Once shutdown has finished, every lease and every neutralization has ended, the lease table is empty, and
      this stays so over every further run. */
  lemma ShutdownFinal(init: State, run: seq<Action>, further: seq<Action>)
    requires Initial(init) && Exec(init, run).shutdown.Complete?
    ensures var st := Exec(Exec(init, run), further); st.leases == map[] && st.closed && AtRest(st)
  {
    TableExec(init, run);
    TableFrom(Exec(init, run), further);
    CompleteStays(Exec(init, run), further);
    TableInit(init);
    RestsOnceComplete(init, run);
    RestsOnceComplete(Exec(init, run), further);
    var st := Exec(Exec(init, run), further);
    forall s ensures s !in st.leases && st.closed {
      assert ShutdownAt(st, s);
    }
    assert ShutdownAt(st, "");
  }

  // ---------------------------------------------------------------- the end of a neutralization

  predicate LeasesFinished(st: State) {
    forall l | l in st.lives :: st.lives[l].pc.Finished?
  }

  function Undrained(drains: map<Session, Drain>): set<Session> {
    set s | s in drains && !drains[s].Drained?
  }

  predicate IsDraining(st: State, n: Id) {
    n in st.neutralizations && st.neutralizations[n].pc.Draining?
  }

  lemma DrainOne(st: State, n: Id, s: Session)
    requires Table(st) && LeasesFinished(st) && IsDraining(st, n) && s in Undrained(st.neutralizations[n].pc.drains)
    ensures var t := Next(st, DrainSession(n, s));
            && IsDraining(t, n) && t.lives == st.lives
            && Undrained(t.neutralizations[n].pc.drains) == Undrained(st.neutralizations[n].pc.drains) - {s}
  {
    assert DrainAt(st, n, s) && LeaseAt(st, s);
  }

  /** With every lease finished, a draining neutralization can be brought to its end. */
  lemma {:induction false} DrainAll(st: State, n: Id) returns (run: seq<Action>)
    requires Table(st) && LeasesFinished(st) && IsDraining(st, n)
    ensures n in Exec(st, run).neutralizations && Exec(st, run).neutralizations[n].pc.Over?
    decreases Undrained(st.neutralizations[n].pc.drains)
  {
    var left := Undrained(st.neutralizations[n].pc.drains);
    if left == {} {
      var drains := st.neutralizations[n].pc.drains;
      assert forall s | s in drains && !drains[s].Drained? :: s in left;
      run := CancelAndUnmark(st, n);
    } else {
      var s :| s in left;
      DrainOne(st, n, s);
      TableNext(st, DrainSession(n, s));
      var rest := DrainAll(Next(st, DrainSession(n, s)), n);
      run := [DrainSession(n, s)] + rest;
      assert run[1..] == rest;
    }
  }

  lemma CancelAndUnmark(st: State, n: Id) returns (run: seq<Action>)
    requires n in st.neutralizations
    requires var pc := st.neutralizations[n].pc;
             pc.Preflight? || (pc.Draining? && forall s | s in pc.drains :: pc.drains[s].Drained?)
    ensures n in Exec(st, run).neutralizations && Exec(st, run).neutralizations[n].pc.Over?
  {
    run := [Cancel(n), Unmark(n)];
    var t := Next(st, Cancel(n));
    assert run[1..] == [Unmark(n)] && run[1..][1..] == [];
    assert Exec(t, run[1..]) == Exec(Next(t, Unmark(n)), []);
    assert Exec(st, run) == Exec(t, run[1..]);
  }

  /** No neutralization is stuck: once the leases have finished it can end, whatever it found. */
  lemma NeutralizationCanEnd(init: State, run: seq<Action>, n: Id) returns (more: seq<Action>)
    requires Initial(init) && n in Exec(init, run).neutralizations && LeasesFinished(Exec(init, run))
    ensures var t := Exec(init, run + more); n in t.neutralizations && t.neutralizations[n].pc.Over?
  {
    var st := Exec(init, run);
    TableExec(init, run);
    match st.neutralizations[n].pc {
      case Preflight(_) => more := CancelAndUnmark(st, n);
      case Draining(_) => more := DrainAll(st, n);
      case Ending(_) =>
        more := [Unmark(n)];
        assert more[1..] == [] && Exec(st, more) == Exec(Next(st, Unmark(n)), more[1..]);
      case Over => more := [];
    }
    ExecAppend(init, run, more);
  }

  // ---------------------------------------------------------------- the supervisor's own operations

  /** The supervisor with the maps and sets it updates in place. */
  class Supervisor {
    var leases: map<Session, Id>
    var neutralizing: set<Session>
    var quarantined: map<Session, Option<Id>>
    var closed: bool
    var disk: map<Id, Session>
    var writes: multiset<Id>
    var lives: map<Id, Lease>
    var neutralizations: map<Id, Neutralization>
    var shutdown: Shutdown

    function St(): State
      reads this
    {
      State(leases, neutralizing, quarantined, closed, disk, writes, lives, neutralizations, shutdown)
    }

    constructor (recovered: map<Session, Option<Id>>, disk: map<Id, Session>)
      ensures St() == State(map[], {}, recovered, false, disk, multiset{}, map[], map[], NotAsked)
    {
      leases, neutralizing, quarantined, closed := map[], {}, recovered, false;
      this.disk, writes, lives, neutralizations, shutdown := disk, multiset{}, map[], map[], NotAsked;
    }

    /** The admission part of `withSessionLease`. */
    method AdmitLease(session: Session, lease: Id) returns (admitted: bool)
      modifies this
      ensures St() == AcquireStep(old(St()), session, lease)
      ensures admitted <==> !old(closed) && session !in old(neutralizing) && session !in old(leases)
    {
      if closed { return false; }
      if session in neutralizing || session in leases { return false; }
      leases := leases[session := lease];
      lives := lives[lease := Lease(session, Validating, None)];
      return true;
    }

    method RevalidateQuarantine(session: Session, find: Find, dead: bool) returns (blocked: bool)
      modifies this
      ensures (St(), blocked) == Revalidate(old(St()), session, find, dead)
    {
      if session !in quarantined { return false; }
      var manifest := quarantined[session];
      match find {
        case Unreadable => return true;
        case NotFound =>
        case Found(m) => manifest := Some(m);
      }
      if manifest.None? { return true; }
      if dead {
        disk := disk - {manifest.value};
        quarantined := quarantined - {session};
        return false;
      }
      quarantined := quarantined[session := manifest];
      return true;
    }

    method SettleLeaseCleanup(lease: Id)
      requires lease in lives && lives[lease].pc.Closed?
      modifies this
      ensures St() == SettleStep(old(St()), lease)
    {
      var session, result := lives[lease].session, lives[lease].pc.result;
      if result == FailedResidual {
        quarantined := quarantined[session := None];
      }
      if session in leases && leases[session] == lease {
        leases := leases - {session};
      }
      lives := lives[lease := lives[lease].(pc := Finished(result))];
    }

    /** The admission part of `withSessionsNeutralized`. */
    method MarkSessions(id: Id, sessions: seq<Session>) returns (admitted: bool)
      requires id !in neutralizations
      modifies this
      ensures St() == NeutralizeStep(old(St()), id, set s | s in sessions)
      ensures admitted <==> !old(closed) && forall s | s in sessions :: s !in old(neutralizing)
    {
      ghost var all := set s | s in sessions;
      if closed { return false; }
      for i := 0 to |sessions|
        invariant St() == old(St()) && forall k | 0 <= k < i :: sessions[k] !in neutralizing
      {
        if sessions[i] in neutralizing {
          assert sessions[i] in all * neutralizing;
          return false;
        }
      }
      assert all * neutralizing == {};
      for i := 0 to |sessions|
        invariant St() == old(St()).(neutralizing := old(neutralizing) + set s | s in sessions[..i])
      {
        assert sessions[..i + 1] == sessions[..i] + [sessions[i]];
        neutralizing := neutralizing + {sessions[i]};
      }
      assert sessions[..|sessions|] == sessions;
      var marked := set s | s in sessions;
      neutralizations := neutralizations[id := Neutralization(marked, AfterPreflight(marked, marked))];
      return true;
    }

    /** The finalizer of a neutralization's fiber. */
    method ClearMarks(id: Id, sessions: seq<Session>)
      requires id in neutralizations && neutralizations[id].pc.Ending?
      requires neutralizations[id].sessions == set s | s in sessions
      modifies this
      ensures St() == Next(old(St()), Unmark(id))
    {
      for i := 0 to |sessions|
        invariant St() == old(St()).(neutralizing := old(neutralizing) - set s | s in sessions[..i])
      {
        assert sessions[..i + 1] == sessions[..i] + [sessions[i]];
        neutralizing := neutralizing - {sessions[i]};
      }
      assert sessions[..|sessions|] == sessions;
      neutralizations := neutralizations[id := neutralizations[id].(pc := Over)];
    }

    /** The first, atomic part of `shutdownSupervisor`: no lease is admitted from here on. */
    method CloseAdmission() returns (records: set<Id>)
      requires shutdown.NotAsked?
      modifies this
      ensures St() == Next(old(St()), BeginShutdown) && records == old(leases).Values && closed
    {
      closed := true;
      records := leases.Values;
      shutdown := Joining(records);
    }
  }
}
