/**
 * Startup recovery of capsule ownership (packages/agent-executor/src/ownership.ts) and
 * the bounded stop of a process tree (packages/agent-executor/src/process-tree.ts).
 *
 * Probes, signals, file operations and the clock belong to the outside world: every answer
 * is arbitrary, and everything asked and done is kept in a log.  The results say what the
 * log can look like, whatever the answers were, and what is on disk at the end.
 */
module OwnershipRecovery {
  import opened Options

  type Path = nat
  type Session = nat

  datatype Identity = Match | Mismatch | Absent | UnverifiedIdentity

  datatype Liveness = Live | Dead | Unverified

  datatype Signal = Term | Kill

  /** The recorded process; its group, if it has one, is what is probed and signalled. */
  datatype Worker = Worker(pid: nat, startToken: Option<nat>, group: Option<nat>)

  datatype Phase = Opening | Ready | Running | Cancelling | Cleaning

  datatype Health = Healthy(phase: Phase) | Degraded(previous: Phase, liveness: Liveness)

  datatype Manifest = Manifest(session: Session, worker: Worker, health: Health)

  datatype Entry = Entry(path: Path, manifest: Manifest)

  datatype Event =
    | AskedIdentity(worker: Worker, identity: Identity)
    | AskedLiveness(worker: Worker, liveness: Liveness)
    | Signalled(worker: Worker, signal: Signal, at: nat)
    | Removed(entry: Entry)
    | Rewritten(entry: Entry)

  datatype Result<+T> = Ok(value: T) | Failed

  const BUDGET_NS: nat := 5_000 * 1_000_000
  const TERM_GRACE_NS: nat := 1_000 * 1_000_000
  const NS_PER_MS: nat := 1_000_000

  // ---------------------------------------------------------------------------
  // What a log may contain
  // ---------------------------------------------------------------------------

  predicate Concerns(e: Event, w: Worker) {
    match e
    case AskedIdentity(worker, _) => worker == w
    case AskedLiveness(worker, _) => worker == w
    case Signalled(worker, _, _) => worker == w
    case Removed(entry) => entry.manifest.worker == w
    case Rewritten(entry) => entry.manifest.worker == w
  }

  /** The events from `a` up to `i` are one undisturbed recovery of `w`. */
  predicate Alone(log: seq<Event>, w: Worker, a: nat, i: nat)
    requires i <= |log|
  {
    forall k | a <= k < i :: Concerns(log[k], w)
  }

  /**
   * The recovery that begins at `a` found the recorded identity in place, and asked again and
   * saw the tree alive before it did anything to it.
   */
  predicate SeenAlive(log: seq<Event>, w: Worker, a: nat, i: nat)
    requires i <= |log|
  {
    && a + 2 < i
    && log[a] == AskedIdentity(w, Match)
    && log[a + 1].AskedLiveness?
    && log[a + 2] == AskedLiveness(w, Live)
    && Alone(log, w, a, i)
  }

  predicate IsSignal(e: Event, w: Worker, signal: Signal) {
    e.Signalled? && e.worker == w && e.signal == signal
  }

  predicate IsProbe(e: Event, w: Worker) {
    e.AskedLiveness? && e.worker == w
  }

  predicate SignalAllowed(log: seq<Event>, i: nat)
    requires i < |log|
  {
    log[i].Signalled? ==>
      && (exists a | 0 <= a < i :: SeenAlive(log, log[i].worker, a, i))
      && log[i - 1].AskedLiveness? && log[i - 1].worker == log[i].worker && !log[i - 1].liveness.Dead?
      && (log[i].signal.Term? ==> log[i - 1].liveness.Live?)
      && (log[i].signal.Kill? ==> exists k | 0 <= k < i :: IsSignal(log[k], log[i].worker, Term))
  }

  predicate RemovalAllowed(log: seq<Event>, i: nat)
    requires i < |log|
  {
    log[i].Removed? ==> i > 0 && log[i - 1] == AskedLiveness(log[i].entry.manifest.worker, Dead)
  }

  /** Nothing is signalled unless it is ours and alive, nothing is forgotten unless it is seen dead. */
  predicate Sound(log: seq<Event>) {
    forall i | 0 <= i < |log| :: SignalAllowed(log, i) && RemovalAllowed(log, i)
  }

  /** A log stays sound when events are added that are neither signals nor removals. */
  lemma SoundGrows(log: seq<Event>, e: Event)
    requires Sound(log)
    requires SignalAllowed(log + [e], |log|) && RemovalAllowed(log + [e], |log|)
    ensures Sound(log + [e])
  {
    var t := log + [e];
    forall i | 0 <= i < |t|
      ensures SignalAllowed(t, i) && RemovalAllowed(t, i)
    {
      if i < |log| {
        assert SignalAllowed(log, i) && RemovalAllowed(log, i);
        SignalStays(log, e, i);
      }
    }
  }

  lemma SignalStays(log: seq<Event>, e: Event, i: nat)
    requires i < |log| && SignalAllowed(log, i)
    ensures SignalAllowed(log + [e], i)
  {
    var t := log + [e];
    assert forall k | 0 <= k < |log| :: t[k] == log[k];
    if log[i].Signalled? {
      var a :| 0 <= a < i && SeenAlive(log, log[i].worker, a, i);
      assert SeenAlive(t, t[i].worker, a, i);
      if log[i].signal.Kill? {
        var k :| 0 <= k < i && IsSignal(log[k], log[i].worker, Term);
        assert IsSignal(t[k], t[i].worker, Term);
      }
    }
  }

  /** Whoever was signalled had its recorded identity confirmed first, and then was seen alive. */
  lemma OnlyOwnLiveTreesAreSignalled(log: seq<Event>, w: Worker, i: nat)
    requires Sound(log) && i < |log| && log[i].Signalled? && log[i].worker == w
    ensures AskedIdentity(w, Match) in log[..i] && AskedLiveness(w, Live) in log[..i]
  {
    assert SignalAllowed(log, i);
    var a :| 0 <= a < i && SeenAlive(log, w, a, i);
    assert log[..i][a] == AskedIdentity(w, Match) && log[..i][a + 2] == AskedLiveness(w, Live);
  }

  /** Whoever's manifest was removed had been seen dead. */
  lemma OnlyDeadTreesAreForgotten(log: seq<Event>, entry: Entry, i: nat)
    requires Sound(log) && i < |log| && log[i] == Removed(entry)
    ensures AskedLiveness(entry.manifest.worker, Dead) in log[..i]
  {
    assert RemovalAllowed(log, i);
    assert log[..i][i - 1] == log[i - 1];
  }

  lemma SeenStays(log: seq<Event>, w: Worker, a: nat, e: Event)
    requires SeenAlive(log, w, a, |log|) && Concerns(e, w)
    ensures SeenAlive(log + [e], w, a, |log| + 1)
  {
    assert forall k | 0 <= k < |log| :: (log + [e])[k] == log[k];
  }

  // ---------------------------------------------------------------------------
  // What a recovery has to do
  // ---------------------------------------------------------------------------

  /** The kill at `i` came a second after a term, or at the deadline, or a probe in between had not found
      the tree alive. */
  predicate KillPatient(log: seq<Event>, i: nat, deadline: nat)
    requires i < |log|
  {
    log[i].Signalled? && log[i].signal.Kill? ==>
      exists k | 0 <= k < i ::
        IsSignal(log[k], log[i].worker, Term)
        && (|| log[i].at >= log[k].at + TERM_GRACE_NS
            || log[i].at >= deadline
            || exists p | k < p < i - 1 :: IsProbe(log[p], log[i].worker) && !log[p].liveness.Live?)
  }

  /** Stopping the tree: probed, told to terminate if alive, killed if that was not enough, probed again. */
  predicate StopTried(log: seq<Event>, w: Worker, dead: bool) {
    && |log| > 0 && IsProbe(log[0], w)
    && (!log[0].liveness.Live? ==> |log| == 1 && dead == log[0].liveness.Dead?)
    && (log[0].liveness.Live? ==>
          && |log| > 2 && IsSignal(log[1], w, Term)
          && IsProbe(log[|log| - 1], w) && dead == log[|log| - 1].liveness.Dead?
          && (!dead ==> exists k | 1 < k < |log| - 1 :: IsSignal(log[k], w, Kill)))
  }

  /** The identity and then the group were asked for at `a`. */
  predicate Asked(log: seq<Event>, a: nat, w: Worker) {
    a + 1 < |log| && log[a].AskedIdentity? && log[a].worker == w && IsProbe(log[a + 1], w)
  }

  /** The recorded root process is gone or another one, and its group is gone. */
  predicate LooksDead(log: seq<Event>, a: nat)
    requires a + 1 < |log| && log[a].AskedIdentity? && log[a + 1].AskedLiveness?
  {
    (log[a].identity.Absent? || log[a].identity.Mismatch?) && log[a + 1].liveness.Dead?
  }

  predicate LooksLive(log: seq<Event>, a: nat)
    requires a + 1 < |log| && log[a].AskedIdentity? && log[a + 1].AskedLiveness?
  {
    log[a].identity.Match? || log[a + 1].liveness.Live?
  }

  /** The whole recovery of one manifest: the identity and the group are asked for; a matching tree is
      stopped if there is time; the manifest is removed exactly if the tree was dead, else rewritten. */
  predicate Handled(log: seq<Event>, entry: Entry, outcome: Liveness, inTime: bool) {
    var w, n := entry.manifest.worker, |log| - 1;
    && n >= 2 && Asked(log, 0, w)
    && log[n] == (if outcome.Dead? then Removed(entry) else Rewritten(entry))
    && (log[0].identity.Match? && inTime ==> StopTried(log[2..n], w, outcome.Dead?))
    && (!log[0].identity.Match? ==> n == 2 && (outcome.Dead? <==> LooksDead(log, 0)))
    && (!outcome.Dead? ==> (outcome.Live? <==> LooksLive(log, 0)))
  }

  /** From `from` on a live tree was told to terminate, and killed at `k` if it was not seen dead before. */
  lemma StopTriedAt(log: seq<Event>, from: nat, w: Worker, k: nat, dead: bool)
    requires from + 2 < |log| && log[from] == AskedLiveness(w, Live) && IsSignal(log[from + 1], w, Term)
    requires IsProbe(log[|log| - 1], w) && dead == log[|log| - 1].liveness.Dead?
    requires !dead ==> from + 1 < k < |log| - 1 && IsSignal(log[k], w, Kill)
    ensures StopTried(log[from..], w, dead)
  {
    var seg := log[from..];
    assert seg[0] == log[from] && seg[1] == log[from + 1] && seg[|seg| - 1] == log[|log| - 1];
    if !dead {
      assert seg[k - from] == log[k];
    }
  }

  lemma StopTriedIfDead(log: seq<Event>, from: nat, w: Worker, last: Liveness)
    requires from + 2 < |log| && log[from] == AskedLiveness(w, Live) && IsSignal(log[from + 1], w, Term)
    requires log[|log| - 1] == AskedLiveness(w, last)
    ensures last.Dead? ==> StopTried(log[from..], w, true)
  {
    if last.Dead? {
      StopTriedAt(log, from, w, 0, true);
    }
  }

  lemma SeenAliveFrom(log: seq<Event>, w: Worker, a: nat)
    requires |log| == a + 3 && log[a] == AskedIdentity(w, Match) && IsProbe(log[a + 1], w)
    requires log[a + 2] == AskedLiveness(w, Live)
    ensures SeenAlive(log, w, a, |log|)
  {
  }

  /** A wait of a second, until the deadline or until a probe that does not find the tree alive. */
  predicate Waited(log: seq<Event>, from: nat, w: Worker, now: nat, deadline: nat)
    requires from < |log| && log[from].Signalled?
  {
    || now >= deadline || now >= log[from].at + TERM_GRACE_NS
    || (|log| > from + 1 && IsProbe(log[|log| - 1], w) && !log[|log| - 1].liveness.Live?)
  }

  /** A kill after such a wait and a last probe is patient. */
  lemma WaitedKill(waited: seq<Event>, from: nat, w: Worker, probe: Event, kill: Event, now: nat, deadline: nat)
    requires from < |waited| && IsSignal(waited[from], w, Term) && Waited(waited, from, w, now, deadline)
    requires IsSignal(kill, w, Kill) && kill.at >= now
    ensures KillPatient(waited + [probe] + [kill], |waited| + 1, deadline)
  {
    var log := waited + [probe] + [kill];
    assert log[from] == waited[from] && log[|waited| + 1] == kill && log[|waited| - 1] == waited[|waited| - 1];
    assert IsSignal(log[from], log[|waited| + 1].worker, Term);
  }

  function Closing(entry: Entry, outcome: Liveness): Event {
    if outcome.Dead? then Removed(entry) else Rewritten(entry)
  }

  /** A recovery that stopped the tree. */
  lemma StoppedIsHandled(before: seq<Event>, a: nat, entry: Entry, outcome: Liveness, inTime: bool)
    requires a + 2 < |before| && before[a] == AskedIdentity(entry.manifest.worker, Match)
    requires IsProbe(before[a + 1], entry.manifest.worker) && !outcome.Unverified?
    requires StopTried(before[a + 2..], entry.manifest.worker, outcome.Dead?)
    ensures Handled((before + [Closing(entry, outcome)])[a..], entry, outcome, inTime)
  {
    var seg := (before + [Closing(entry, outcome)])[a..];
    assert seg == before[a..] + [Closing(entry, outcome)];
    assert seg[2..|seg| - 1] == before[a + 2..];
  }

  /** A recovery that only asked. */
  lemma AskedIsHandled(before: seq<Event>, a: nat, entry: Entry, outcome: Liveness, inTime: bool)
    requires a + 2 == |before| && before[a].AskedIdentity? && before[a].worker == entry.manifest.worker
    requires IsProbe(before[a + 1], entry.manifest.worker) && !(before[a].identity.Match? && inTime)
    requires outcome.Dead?
        <==> (before[a].identity.Absent? || before[a].identity.Mismatch?) && before[a + 1].liveness.Dead?
    requires !outcome.Dead? ==> (outcome.Live? <==> before[a].identity.Match? || before[a + 1].liveness.Live?)
    ensures Handled((before + [Closing(entry, outcome)])[a..], entry, outcome, inTime)
  {
    assert (before + [Closing(entry, outcome)])[a..] == before[a..] + [Closing(entry, outcome)];
  }

  function Flat(parts: seq<seq<Event>>): seq<Event> {
    if parts == [] then [] else Flat(parts[..|parts| - 1]) + parts[|parts| - 1]
  }

  /** Each entry was handled in its own part of the log. */
  predicate AllHandled(parts: seq<seq<Event>>, entries: seq<Entry>, outcomes: seq<Liveness>, inTime: bool) {
    && |parts| == |entries| == |outcomes|
    && forall i | 0 <= i < |parts| :: Handled(parts[i], entries[i], outcomes[i], inTime)
  }

  lemma HandledSnoc(parts: seq<seq<Event>>, entries: seq<Entry>, outcomes: seq<Liveness>, inTime: bool,
                    part: seq<Event>, entry: Entry, outcome: Liveness, later: bool)
    requires AllHandled(parts, entries, outcomes, inTime) && (later ==> inTime) && Handled(part, entry, outcome, later)
    ensures AllHandled(parts + [part], entries + [entry], outcomes + [outcome], later)
    ensures Flat(parts + [part]) == Flat(parts) + part
  {
    assert (parts + [part])[..|parts|] == parts;
    forall i | 0 <= i < |parts| ensures Handled(parts[i], entries[i], outcomes[i], later) {
      HandledLater(parts[i], entries[i], outcomes[i], inTime, later);
    }
  }

  lemma HandledLater(log: seq<Event>, entry: Entry, outcome: Liveness, inTime: bool, later: bool)
    requires Handled(log, entry, outcome, inTime) && (later ==> inTime)
    ensures Handled(log, entry, outcome, later)
  {
  }

  /** Every kill from `from` on is patient. */
  predicate KillsPatient(log: seq<Event>, from: nat, deadline: nat) {
    forall i | from <= i < |log| :: KillPatient(log, i, deadline)
  }

  /** What the sweep has done when it has come to some entry. */
  predicate Swept(first: seq<Event>, log: seq<Event>, parts: seq<seq<Event>>, entries: seq<Entry>,
                  outcomes: seq<Liveness>, now: nat, deadline: nat) {
    log == first + Flat(parts) && AllHandled(parts, entries, outcomes, now < deadline)
    && KillsPatient(log, |first|, deadline)
  }

  lemma SweptNext(first: seq<Event>, before: seq<Event>, log: seq<Event>, parts: seq<seq<Event>>, entries: seq<Entry>,
                  i: nat, outcomes: seq<Liveness>, outcome: Liveness, earlier: nat, now: nat, deadline: nat)
    requires i < |entries| && Swept(first, before, parts, entries[..i], outcomes, earlier, deadline)
    requires before <= log && earlier <= now && KillsPatient(log, |before|, deadline)
    requires Handled(log[|before|..], entries[i], outcome, now < deadline)
    ensures Swept(first, log, parts + [log[|before|..]], entries[..i + 1], outcomes + [outcome], now, deadline)
  {
    var part := log[|before|..];
    HandledSnoc(parts, entries[..i], outcomes, earlier < deadline, part, entries[i], outcome, now < deadline);
    KillsAllPatient(before, log, |first|, deadline);
    assert entries[..i] + [entries[i]] == entries[..i + 1] && log == before + part;
  }

  lemma KillsAllPatient(before: seq<Event>, log: seq<Event>, from: nat, deadline: nat)
    requires before <= log && KillsPatient(before, from, deadline) && KillsPatient(log, |before|, deadline)
    ensures KillsPatient(log, from, deadline)
  {
    forall i | from <= i < |before| ensures KillPatient(log, i, deadline) {
      KillStaysPatient(before, log, i, deadline);
    }
  }

  lemma KillStaysPatient(log: seq<Event>, longer: seq<Event>, i: nat, deadline: nat)
    requires log <= longer && i < |log| && KillPatient(log, i, deadline)
    ensures KillPatient(longer, i, deadline)
  {
    if log[i].Signalled? && log[i].signal.Kill? {
      var k :| 0 <= k < i && IsSignal(log[k], log[i].worker, Term)
        && (|| log[i].at >= log[k].at + TERM_GRACE_NS
            || log[i].at >= deadline
            || exists p | k < p < i - 1 :: IsProbe(log[p], log[i].worker) && !log[p].liveness.Live?);
      assert IsSignal(longer[k], longer[i].worker, Term);
      if p :| k < p < i - 1 && IsProbe(log[p], log[i].worker) && !log[p].liveness.Live? {
        assert IsProbe(longer[p], longer[i].worker) && !longer[p].liveness.Live?;
      }
    }
  }

  /** Later events, none of them a signal, leave the kills as patient as they were. */
  lemma KillsStayPatient(log: seq<Event>, longer: seq<Event>, from: nat, deadline: nat)
    requires log <= longer && forall i | |log| <= i < |longer| :: !longer[i].Signalled?
    requires KillsPatient(log, from, deadline)
    ensures KillsPatient(longer, from, deadline)
  {
    forall i | from <= i < |log| ensures KillPatient(longer, i, deadline) {
      KillStaysPatient(log, longer, i, deadline);
    }
  }

  // ---------------------------------------------------------------------------
  // The host
  // ---------------------------------------------------------------------------

  class Host {
    var now: nat
    var disk: map<Path, Manifest>
    ghost var log: seq<Event>

    constructor (now: nat, disk: map<Path, Manifest>)
      ensures this.now == now && this.disk == disk && log == []
    {
      this.now, this.disk, log := now, disk, [];
    }

    method AskIdentity(w: Worker) returns (answer: Identity)
      modifies this`log, this`now
      ensures log == old(log) + [AskedIdentity(w, answer)] && now >= old(now)
    {
      answer := *;
      log := log + [AskedIdentity(w, answer)];
      Pass();
    }

    method AskLiveness(w: Worker) returns (answer: Liveness)
      modifies this`log, this`now
      ensures log == old(log) + [AskedLiveness(w, answer)] && now >= old(now)
    {
      answer := *;
      log := log + [AskedLiveness(w, answer)];
      Pass();
    }

    /** A signal that could not be delivered is ignored by every caller. */
    method SendSignal(w: Worker, signal: Signal)
      modifies this`log, this`now
      ensures log == old(log) + [Signalled(w, signal, old(now))] && now >= old(now)
    {
      log := log + [Signalled(w, signal, now)];
      Pass();
    }

    method Pass()
      modifies this`now
      ensures now >= old(now)
    {
      var elapsed :| elapsed >= 0;
      now := now + elapsed;
    }

    method Sleep(milliseconds: nat)
      modifies this`now
      ensures now >= old(now) + milliseconds * NS_PER_MS
    {
      now := now + milliseconds * NS_PER_MS;
      Pass();
    }

    /** `remaining` */
    method Remaining(deadline: nat) returns (milliseconds: nat)
      ensures milliseconds == if deadline <= now then 0 else (deadline - now) / NS_PER_MS
    {
      milliseconds := if deadline <= now then 0 else (deadline - now) / NS_PER_MS;
    }

    /** `waitForTreeDeath`; it ends by the deadline at the latest, and looks at nothing but this tree. */
    method WaitForTreeDeath(w: Worker, deadline: nat, grace: Option<nat>)
      requires Sound(log) && SeenAliveNow(w)
      modifies this`log, this`now
      ensures Sound(log) && SeenAliveNow(w)
      ensures old(log) <= log && now >= old(now)
      ensures forall k | |old(log)| <= k < |log| :: IsProbe(log[k], w)
      ensures || now >= deadline || (grace.Some? && now >= old(now) + grace.value)
              || (|log| > |old(log)| && IsProbe(log[|log| - 1], w) && !log[|log| - 1].liveness.Live?)
    {
      var own := deadline;
      if grace.Some? && now + grace.value < deadline {
        own := now + grace.value;
      }
      while now < own
        invariant Sound(log) && SeenAliveNow(w)
        invariant old(log) <= log && now >= old(now)
        invariant forall k | |old(log)| <= k < |log| :: IsProbe(log[k], w)
        decreases own - now
      {
        var before := now;
        var liveness := AskChecked(w);
        if !liveness.Live? {
          return;
        }
        var left := Remaining(own);
        var pause := if left < 1 then 1 else left;
        Sleep(if pause < 50 then pause else 50);
        assert now > before;
      }
    }

    ghost predicate SeenAliveNow(w: Worker)
      reads this`log
    {
      exists a | 0 <= a < |log| :: SeenAlive(log, w, a, |log|)
    }

    method AskChecked(w: Worker) returns (answer: Liveness)
      requires Sound(log) && SeenAliveNow(w)
      modifies this`log, this`now
      ensures log == old(log) + [AskedLiveness(w, answer)] && now >= old(now)
      ensures Sound(log) && SeenAliveNow(w)
    {
      ghost var a :| 0 <= a < |log| && SeenAlive(log, w, a, |log|);
      answer := AskLiveness(w);
      SeenStays(old(log), w, a, AskedLiveness(w, answer));
      SoundGrows(old(log), AskedLiveness(w, answer));
    }

    method SignalChecked(w: Worker, signal: Signal)
      requires Sound(log) && SeenAliveNow(w)
      requires log[|log| - 1].AskedLiveness? && log[|log| - 1].worker == w && !log[|log| - 1].liveness.Dead?
      requires signal.Term? ==> log[|log| - 1].liveness.Live?
      requires signal.Kill? ==> exists k | 0 <= k < |log| :: IsSignal(log[k], w, Term)
      modifies this`log, this`now
      ensures log == old(log) + [Signalled(w, signal, old(now))] && now >= old(now)
      ensures Sound(log) && SeenAliveNow(w)
    {
      ghost var a :| 0 <= a < |log| && SeenAlive(log, w, a, |log|);
      ghost var e := Signalled(w, signal, now);
      SendSignal(w, signal);
      assert forall k | 0 <= k < |old(log)| :: log[k] == old(log)[k];
      assert SeenAlive(log, w, a, |old(log)|);
      SeenStays(old(log), w, a, e);
      SoundGrows(old(log), e);
    }

    /** The first half of `stopProcessTreeWithDisposition`: term, wait and ask. */
    method Terminate(w: Worker, deadline: nat, ghost a: nat) returns (after: Liveness)
      requires Sound(log) && |log| == a + 3 && SeenAlive(log, w, a, |log|)
      modifies this`log, this`now
      ensures Sound(log) && SeenAliveNow(w) && now >= old(now) && old(log) <= log
      ensures |log| > a + 4 && IsSignal(log[a + 3], w, Term) && log[|log| - 1] == AskedLiveness(w, after)
      ensures Waited(log[..|log| - 1], a + 3, w, now, deadline)
      ensures KillsPatient(log, a + 2, deadline)
    {
      SignalChecked(w, Term);
      WaitForTreeDeath(w, deadline, Some(TERM_GRACE_NS));
      ghost var waited := log;
      after := AskChecked(w);
      assert log[..|log| - 1] == waited;
    }

    /** The second half: kill, wait and ask. */
    method KillTree(w: Worker, deadline: nat, ghost a: nat, ghost from: nat) returns (last: Liveness)
      requires Sound(log) && SeenAliveNow(w) && a < |log| - 1 && KillsPatient(log, from, deadline)
      requires IsSignal(log[a], w, Term) && IsProbe(log[|log| - 1], w) && !log[|log| - 1].liveness.Dead?
      requires Waited(log[..|log| - 1], a, w, now, deadline)
      modifies this`log, this`now
      ensures Sound(log) && now >= old(now)
      ensures old(log) <= log && |log| > |old(log)| + 1 && IsSignal(log[|old(log)|], w, Kill)
      ensures log[|log| - 1] == AskedLiveness(w, last)
      ensures KillsPatient(log, from, deadline)
    {
      ghost var waited := log[..|log| - 1];
      assert log == waited + [log[|log| - 1]];
      SignalChecked(w, Kill);
      ghost var killed := log;
      WaitedKill(waited, a, w, old(log)[|old(log)| - 1], killed[|killed| - 1], old(now), deadline);
      KillsAllPatient(old(log), killed, from, deadline);
      WaitForTreeDeath(w, deadline, None);
      last := AskChecked(w);
      KillsStayPatient(killed, log, from, deadline);
    }

    /** `stopProcessTreeWithDisposition`, after the identity was seen to match at `a`. */
    method StopProcessTree(w: Worker, deadline: nat, ghost a: nat) returns (alive: bool)
      requires Sound(log) && a + 2 == |log|
      requires log[a] == AskedIdentity(w, Match) && log[a + 1].AskedLiveness? && log[a + 1].worker == w
      modifies this`log, this`now
      ensures Sound(log) && old(log) <= log && now >= old(now)
      ensures StopTried(log[a + 2..], w, !alive) && IsProbe(log[|log| - 1], w)
      ensures !alive ==> log[|log| - 1] == AskedLiveness(w, Dead)
      ensures KillsPatient(log, a + 2, deadline)
    {
      var initial := AskLiveness(w);
      SoundGrows(old(log), AskedLiveness(w, initial));
      ghost var asked := log;
      assert log[a + 2..] == [AskedLiveness(w, initial)];
      if initial.Dead? {
        return false;
      }
      if initial.Unverified? {
        return true;
      }
      SeenAliveFrom(log, w, a);
      var afterTerm := Terminate(w, deadline, a);
      assert log[a + 2] == asked[a + 2];
      StopTriedIfDead(log, a + 2, w, afterTerm);
      if afterTerm.Dead? {
        return false;
      }
      ghost var told := log;
      var last := KillTree(w, deadline, a + 3, a + 2);
      assert log[a + 2] == told[a + 2] && log[a + 3] == told[a + 3];
      StopTriedAt(log, a + 2, w, |told|, last.Dead?);
      return !last.Dead?;
    }

    // -------------------------------------------------------------------------
    // Manifests
    // -------------------------------------------------------------------------

    /** `removeManifest`; a missing file is fine, any other failure ends the recovery. */
    method RemoveManifest(entry: Entry) returns (ok: bool)
      requires Sound(log) && log != [] && log[|log| - 1] == AskedLiveness(entry.manifest.worker, Dead)
      modifies this
      ensures Sound(log) && old(log) <= log && now >= old(now)
      ensures ok ==> log == old(log) + [Removed(entry)] && disk == old(disk) - {entry.path}
      ensures !ok ==> log == old(log) && disk == old(disk)
    {
      ok := *;
      if ok {
        SoundGrows(log, Removed(entry));
        log := log + [Removed(entry)];
        disk := disk - {entry.path};
      }
    }

    /** `writeAcpOwnershipManifest`: replaced as a whole or not at all. */
    method RewriteManifest(entry: Entry, manifest: Manifest) returns (ok: bool)
      requires Sound(log)
      modifies this
      ensures Sound(log) && old(log) <= log && now >= old(now)
      ensures ok ==> log == old(log) + [Rewritten(entry)] && disk == old(disk)[entry.path := manifest]
      ensures !ok ==> log == old(log) && disk == old(disk)
    {
      ok := *;
      if ok {
        SoundGrows(log, Rewritten(entry));
        log := log + [Rewritten(entry)];
        disk := disk[entry.path := manifest];
      }
    }

    /** `finishAcpOwnership` */
    method FinishOwnership(entry: Entry, liveness: Liveness) returns (r: Result<Liveness>)
      requires Sound(log)
      requires liveness.Dead? ==> log != [] && log[|log| - 1] == AskedLiveness(entry.manifest.worker, Dead)
      modifies this
      ensures Sound(log) && old(log) <= log && now >= old(now)
      ensures r.Ok? ==> r.value == liveness && disk == Finished(old(disk), entry, liveness)
      ensures r.Ok? ==> log == old(log) + [if liveness.Dead? then Removed(entry) else Rewritten(entry)]
      ensures r.Failed? ==> log == old(log)
      ensures r.Failed? ==> disk == old(disk)
    {
      var ok: bool;
      if liveness.Dead? {
        ok := RemoveManifest(entry);
        return if ok then Ok(Dead) else Failed;
      }
      var m := entry.manifest;
      var previous := if m.health.Degraded? then m.health.previous else m.health.phase;
      ok := RewriteManifest(entry, m.(health := Degraded(previous, liveness)));
      return if ok then Ok(liveness) else Failed;
    }

    /** The end of `recoverManifest`, for a tree that is ours and for which there is time. */
    method StopAndFinish(entry: Entry, deadline: nat, ghost a: nat) returns (r: Result<Liveness>)
      requires Sound(log) && a + 2 == |log|
      requires log[a] == AskedIdentity(entry.manifest.worker, Match) && IsProbe(log[a + 1], entry.manifest.worker)
      modifies this
      ensures Sound(log) && old(log) <= log && now >= old(now)
      ensures r.Ok? ==> disk == Finished(old(disk), entry, r.value)
      ensures r.Failed? ==> disk == old(disk)
      ensures r.Ok? ==> Handled(log[a..], entry, r.value, true)
      ensures KillsPatient(log, a + 2, deadline)
    {
      var alive := StopProcessTree(entry.manifest.worker, deadline, a);
      ghost var stopped := log;
      var liveness := if alive then Live else Dead;
      StoppedIsHandled(stopped, a, entry, liveness, true);
      r := FinishOwnership(entry, liveness);
      KillsStayPatient(stopped, log, a + 2, deadline);
    }

    /** `recoverManifest` */
    method RecoverManifest(entry: Entry, deadline: nat) returns (r: Result<Liveness>)
      requires Sound(log)
      modifies this
      ensures Sound(log) && old(log) <= log && now >= old(now)
      ensures r.Ok? ==> disk == Finished(old(disk), entry, r.value)
      ensures r.Failed? ==> disk == old(disk)
      ensures r.Ok? ==> Handled(log[|old(log)|..], entry, r.value, now < deadline)
      ensures KillsPatient(log, |old(log)|, deadline)
    {
      var w := entry.manifest.worker;
      ghost var a := |log|;
      var root := AskIdentity(w);
      SoundGrows(old(log), AskedIdentity(w, root));
      var group := AskLiveness(w);
      SoundGrows(log[..a + 1], AskedLiveness(w, group));
      assert log == log[..a + 1] + [AskedLiveness(w, group)];
      ghost var asked := log;
      if (root.Absent? || root.Mismatch?) && group.Dead? {
        var ok := RemoveManifest(entry);
        AskedIsHandled(asked, a, entry, Dead, now < deadline);
        KillsStayPatient(old(log), log, a, deadline);
        return if ok then Ok(Dead) else Failed;
      }
      if !root.Match? || now >= deadline {
        var liveness := if root.Match? || group.Live? then Live else Unverified;
        r := FinishOwnership(entry, liveness);
        AskedIsHandled(asked, a, entry, liveness, now < deadline);
        KillsStayPatient(old(log), log, a, deadline);
        return;
      }
      r := StopAndFinish(entry, deadline, a);
    }

    /** `recoverProcessCapsules` over the decoded manifest files. */
    method RecoverProcessCapsules(entries: seq<Entry>)
        returns (r: Result<map<Session, (Liveness, Entry)>>, ghost outcomes: seq<Liveness>,
                 ghost parts: seq<seq<Event>>)
      requires Sound(log) && OnDisk(disk, entries)
      modifies this
      ensures Sound(log) && old(log) <= log
      ensures r.Ok? ==> |outcomes| == |entries| && r.value == Quarantined(entries, outcomes)
      ensures r.Ok? ==> disk == AllFinished(old(disk), entries, outcomes)
      ensures r.Ok? ==> r.value.Keys == SessionsLeft(disk, entries)
      ensures r.Ok? ==> log == old(log) + Flat(parts)
      ensures r.Ok? ==> AllHandled(parts, entries, outcomes, now < old(now) + BUDGET_NS)
      ensures KillsPatient(log, |old(log)|, old(now) + BUDGET_NS)
    {
      var quarantined: map<Session, (Liveness, Entry)> := map[];
      outcomes, parts := [], [];
      var deadline := now + BUDGET_NS;
      for i := 0 to |entries|
        invariant Sound(log) && old(log) <= log
        invariant |outcomes| == i && quarantined == Quarantined(entries[..i], outcomes)
        invariant disk == AllFinished(old(disk), entries[..i], outcomes)
        invariant Swept(old(log), log, parts, entries[..i], outcomes, now, deadline)
      {
        ghost var before, earlier := log, now;
        var recovered := RecoverManifest(entries[i], deadline);
        if recovered.Failed? {
          KillsAllPatient(before, log, |old(log)|, deadline);
          return Failed, outcomes, parts;
        }
        SweptNext(old(log), before, log, parts, entries, i, outcomes, recovered.value, earlier, now, deadline);
        parts := parts + [log[|before|..]];
        Snoc(old(disk), entries, outcomes, i, recovered.value);
        outcomes := outcomes + [recovered.value];
        if !recovered.value.Dead? {
          quarantined := quarantined[entries[i].manifest.session := (recovered.value, entries[i])];
        }
      }
      assert entries[..|entries|] == entries;
      KeysAreSessionsLeft(old(disk), entries, outcomes);
      r := Ok(quarantined);
    }

    /** `revalidateOwnership`: the same evidence is asked for, and nothing is signalled. */
    method RevalidateOwnership(entry: Entry) returns (r: Result<Liveness>)
      requires Sound(log)
      modifies this
      ensures Sound(log) && old(log) <= log
      ensures forall k | |old(log)| <= k < |log| :: !log[k].Signalled? && !log[k].Rewritten?
      ensures r.Ok? && r.value.Dead? ==> disk == old(disk) - {entry.path}
      ensures !(r.Ok? && r.value.Dead?) ==> disk == old(disk)
      ensures Asked(log, |old(log)|, entry.manifest.worker)
      ensures r.Ok? ==> (r.value.Dead? <==> LooksDead(log, |old(log)|))
      ensures r.Ok? && !r.value.Dead? ==> (r.value.Live? <==> LooksLive(log, |old(log)|))
      ensures r.Failed? ==> LooksDead(log, |old(log)|)
    {
      var w := entry.manifest.worker;
      ghost var a := |log|;
      var root := AskIdentity(w);
      SoundGrows(old(log), AskedIdentity(w, root));
      var group := AskLiveness(w);
      SoundGrows(log[..a + 1], AskedLiveness(w, group));
      assert log == log[..a + 1] + [AskedLiveness(w, group)];
      if (root.Absent? || root.Mismatch?) && group.Dead? {
        var ok := RemoveManifest(entry);
        return if ok then Ok(Dead) else Failed;
      }
      return Ok(if root.Match? || group.Live? then Live else Unverified);
    }
  }

  // ---------------------------------------------------------------------------
  // Disk and quarantine
  // ---------------------------------------------------------------------------

  /** The decoded entries are files of the disk, each under its own path. */
  predicate OnDisk(disk: map<Path, Manifest>, entries: seq<Entry>) {
    && (forall i | 0 <= i < |entries| :: entries[i].path in disk && disk[entries[i].path] == entries[i].manifest)
    && (forall i, j | 0 <= i < j < |entries| :: entries[i].path != entries[j].path)
  }

  /** What one recovered entry leaves on disk: nothing if it is dead, else itself, marked as degraded. */
  function Finished(disk: map<Path, Manifest>, entry: Entry, liveness: Liveness): map<Path, Manifest> {
    if liveness.Dead? then disk - {entry.path}
    else
      var h := entry.manifest.health;
      var previous := if h.Degraded? then h.previous else h.phase;
      disk[entry.path := entry.manifest.(health := Degraded(previous, liveness))]
  }

  function AllFinished(disk: map<Path, Manifest>, entries: seq<Entry>, outcomes: seq<Liveness>): map<Path, Manifest>
    requires |entries| == |outcomes|
  {
    if entries == [] then disk
    else
      var n := |entries| - 1;
      Finished(AllFinished(disk, entries[..n], outcomes[..n]), entries[n], outcomes[n])
  }

  function Quarantined(entries: seq<Entry>, outcomes: seq<Liveness>): map<Session, (Liveness, Entry)>
    requires |entries| == |outcomes|
  {
    if entries == [] then map[]
    else
      var n := |entries| - 1;
      var earlier := Quarantined(entries[..n], outcomes[..n]);
      if outcomes[n].Dead? then earlier else earlier[entries[n].manifest.session := (outcomes[n], entries[n])]
  }

  /** The sessions of the entries whose manifest is still there. */
  function SessionsLeft(disk: map<Path, Manifest>, entries: seq<Entry>): set<Session> {
    set i | 0 <= i < |entries| && entries[i].path in disk :: entries[i].manifest.session
  }

  lemma Snoc(disk: map<Path, Manifest>, entries: seq<Entry>, outcomes: seq<Liveness>, i: nat, next: Liveness)
    requires i < |entries| && |outcomes| == i
    ensures AllFinished(disk, entries[..i + 1], outcomes + [next])
         == Finished(AllFinished(disk, entries[..i], outcomes), entries[i], next)
    ensures Quarantined(entries[..i + 1], outcomes + [next])
         == (var earlier := Quarantined(entries[..i], outcomes);
             if next.Dead? then earlier else earlier[entries[i].manifest.session := (next, entries[i])])
  {
    assert entries[..i + 1][..i] == entries[..i];
    assert (outcomes + [next])[..i] == outcomes;
  }

  /** The same manifest, degraded by this evidence; it remembers the phase of its last healthy moment. */
  predicate DegradedBy(before: Manifest, after: Manifest, liveness: Liveness) {
    && after.worker == before.worker && after.session == before.session
    && after.health.Degraded? && after.health.liveness == liveness
    && (before.health.Degraded? ==> after.health.previous == before.health.previous)
    && (!before.health.Degraded? ==> after.health.previous == before.health.phase)
  }

  /** After the sweep a manifest is gone exactly if its recovery ended dead, and is degraded otherwise. */
  lemma {:induction false} LeftOnDisk(disk: map<Path, Manifest>, entries: seq<Entry>, outcomes: seq<Liveness>, i: nat)
    requires OnDisk(disk, entries) && |entries| == |outcomes| && i < |entries|
    ensures entries[i].path in AllFinished(disk, entries, outcomes) <==> !outcomes[i].Dead?
    ensures !outcomes[i].Dead? ==>
              DegradedBy(entries[i].manifest, AllFinished(disk, entries, outcomes)[entries[i].path], outcomes[i])
    decreases |entries|
  {
    var n := |entries| - 1;
    if i == n {
      Untouched(disk, entries[..n], outcomes[..n], entries[n].path);
    } else {
      LeftOnDisk(disk, entries[..n], outcomes[..n], i);
    }
  }

  /** Files the sweep was not given are as they were. */
  lemma {:induction false} Untouched(disk: map<Path, Manifest>, entries: seq<Entry>, outcomes: seq<Liveness>, p: Path)
    requires |entries| == |outcomes| && forall i | 0 <= i < |entries| :: entries[i].path != p
    ensures p in AllFinished(disk, entries, outcomes) <==> p in disk
    ensures p in disk ==> AllFinished(disk, entries, outcomes)[p] == disk[p]
    decreases |entries|
  {
    if entries != [] {
      var n := |entries| - 1;
      Untouched(disk, entries[..n], outcomes[..n], p);
    }
  }

  /** The last manifest of the session whose recovery did not end dead. */
  predicate LastLeft(entries: seq<Entry>, outcomes: seq<Liveness>, s: Session, i: nat)
    requires |entries| == |outcomes|
  {
    && i < |entries| && entries[i].manifest.session == s && !outcomes[i].Dead?
    && forall j | i < j < |entries| :: entries[j].manifest.session == s ==> outcomes[j].Dead?
  }

  /** A session is quarantined exactly if the recovery of one of its manifests did not end dead; what is kept
      for it is the last such manifest and what its recovery found. */
  lemma {:induction false} QuarantinedSessions(entries: seq<Entry>, outcomes: seq<Liveness>, s: Session)
    requires |entries| == |outcomes|
    ensures s in Quarantined(entries, outcomes)
       <==> exists i | 0 <= i < |entries| :: entries[i].manifest.session == s && !outcomes[i].Dead?
    ensures forall i | 0 <= i < |entries| && LastLeft(entries, outcomes, s, i) ::
              s in Quarantined(entries, outcomes) && Quarantined(entries, outcomes)[s] == (outcomes[i], entries[i])
    decreases |entries|
  {
    if entries != [] {
      var n := |entries| - 1;
      QuarantinedSessions(entries[..n], outcomes[..n], s);
      assert forall i | 0 <= i < n :: entries[..n][i] == entries[i] && outcomes[..n][i] == outcomes[i];
      forall i | 0 <= i < |entries| && LastLeft(entries, outcomes, s, i)
        ensures s in Quarantined(entries, outcomes) && Quarantined(entries, outcomes)[s] == (outcomes[i], entries[i])
      {
        if i < n {
          assert LastLeft(entries[..n], outcomes[..n], s, i);
        }
      }
      if i :| 0 <= i < n && entries[i].manifest.session == s && !outcomes[i].Dead? {
        assert entries[..n][i].manifest.session == s && !outcomes[..n][i].Dead?;
      }
    }
  }

  /**
   * The quarantined sessions are exactly those that still have a manifest on disk, also when
   * several manifests name the same session.
   */
  lemma KeysAreSessionsLeft(disk: map<Path, Manifest>, entries: seq<Entry>, outcomes: seq<Liveness>)
    requires OnDisk(disk, entries) && |entries| == |outcomes|
    ensures Quarantined(entries, outcomes).Keys == SessionsLeft(AllFinished(disk, entries, outcomes), entries)
  {
    var end := AllFinished(disk, entries, outcomes);
    forall i | 0 <= i < |entries|
      ensures entries[i].path in end <==> !outcomes[i].Dead?
    {
      LeftOnDisk(disk, entries, outcomes, i);
    }
    forall s
      ensures s in Quarantined(entries, outcomes) <==> s in SessionsLeft(end, entries)
    {
      QuarantinedSessions(entries, outcomes, s);
    }
  }
}
