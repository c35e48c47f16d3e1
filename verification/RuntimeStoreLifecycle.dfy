/** The journaled rollover of a workspace's runtime store, with a crash after any write.

    A resumed transition is a list of atomic writes (its plan) computed from the disk it starts from;
    a crash keeps a prefix of that list, and the next run computes a new plan from what is there. */
module RuntimeStoreLifecycle {
  import opened Options

  type Id = nat
  type Name = string
  type Time = nat
  type Runs = seq<nat>

  const STORAGE_VERSION: nat := 19
  const H1_RUN_INDEX_STORAGE_VERSION: nat := 9

  /** The directory a store can be in. */
  datatype Place = LegacyRuntime | LegacyArchive(name: Name) | Generation(id: Id)

  /** `content` stands for everything in the store that the transition does not look at. */
  datatype Store = Store(format: Option<nat>, complete: bool, runs: Option<Runs>, content: nat)

  datatype Metadata =
    | Metadata(id: Id, storageVersion: Option<nat>, createdAt: Time, archivedAt: Option<Time>)
    | Unreadable

  datatype Manifest = Manifest(version: nat, createdAt: Time, active: Option<Id>) | Malformed

  datatype Kind = FromRuntime | FromArchive(name: Name) | FromGeneration

  datatype Source = Source(kind: Kind, id: Id, storageVersion: Option<nat>, createdAt: Time)

  datatype Journal = Journal(startedAt: Time, next: Id, sources: seq<Source>)

  datatype Disk = Disk(
    stores: map<Place, Store>,
    roots: set<Id>,
    metas: map<Id, Metadata>,
    indexes: map<Id, Runs>,
    manifest: Option<Manifest>,
    journal: Option<Journal>)

  /** One atomic change of the disk. */
  datatype Write =
    | MakeRoot(id: Id)
    | Rename(from: Place, id: Id)
    | WriteMetadata(id: Id, meta: Metadata)
    | WriteIndex(id: Id, runs: Runs)
    | MakeDirectories(id: Id)
    | Initialize(id: Id)
    | WriteManifest(manifest: Manifest)
    | RemoveJournal

  /** What a run writes if it is not interrupted, and whether it ends without an error. */
  datatype Plan = Plan(writes: seq<Write>, ok: bool)

  function Original(s: Source): Option<Place> {
    match s.kind
    case FromRuntime => Some(LegacyRuntime)
    case FromArchive(name) => Some(LegacyArchive(name))
    case FromGeneration => None
  }

  function SealedMetadata(j: Journal, s: Source): Metadata {
    Metadata(s.id, s.storageVersion, s.createdAt, Some(j.startedAt))
  }

  function NextMetadata(j: Journal): Metadata {
    Metadata(j.next, Some(STORAGE_VERSION), j.startedAt, None)
  }

  const EMPTY := Store(None, false, None, 0)

  function Initialized(store: Store): Store {
    if store.format.None? then store.(format := Some(STORAGE_VERSION), complete := true) else store
  }

  function Apply(d: Disk, w: Write): Disk {
    match w
    case MakeRoot(id) => d.(roots := d.roots + {id})
    case Rename(from, id) =>
      if from in d.stores then d.(stores := (d.stores - {from})[Generation(id) := d.stores[from]]) else d
    case WriteMetadata(id, meta) => d.(metas := d.metas[id := meta])
    case WriteIndex(id, runs) => d.(indexes := d.indexes[id := runs])
    case MakeDirectories(id) =>
      d.(roots := d.roots + {id},
         stores := if Generation(id) in d.stores then d.stores else d.stores[Generation(id) := EMPTY])
    case Initialize(id) =>
      if Generation(id) in d.stores
      then d.(stores := d.stores[Generation(id) := Initialized(d.stores[Generation(id)])]) else d
    case WriteManifest(manifest) => d.(manifest := Some(manifest))
    case RemoveJournal => d.(journal := None)
  }

  function ApplyAll(d: Disk, writes: seq<Write>): Disk
    decreases |writes|
  {
    if writes == [] then d else ApplyAll(Apply(d, writes[0]), writes[1..])
  }

  /** The metadata found at the destination belongs to another generation, or to another transition. */
  predicate ChangedIdentity(d: Disk, j: Journal, s: Source) {
    s.id in d.metas &&
    (d.metas[s.id].Unreadable?
     || d.metas[s.id].id != s.id
     || d.metas[s.id].storageVersion != s.storageVersion
     || d.metas[s.id].createdAt != s.createdAt
     || (d.metas[s.id].archivedAt.Some? && d.metas[s.id].archivedAt != Some(j.startedAt)))
  }

  function RunIndexWrites(s: Source, store: Store): seq<Write> {
    if s.storageVersion == Some(H1_RUN_INDEX_STORAGE_VERSION) && store.complete && store.runs.Some?
    then [WriteIndex(s.id, store.runs.value)] else []
  }

  /** `sealTransitionSource` */
  function SealPlan(d: Disk, j: Journal, s: Source): Plan {
    var original := Original(s);
    var originalExists := original.Some? && original.value in d.stores;
    var destinationExists := Generation(s.id) in d.stores;
    if s.kind.FromGeneration? && s.id !in d.roots then Plan([], false)
    else if original.Some? && originalExists == destinationExists then Plan([], false)
    else if s.kind.FromGeneration? && !destinationExists then
      if s.storageVersion.Some? || s.id in d.metas then Plan([MakeRoot(s.id)], false)
      else Plan([MakeRoot(s.id), WriteMetadata(s.id, SealedMetadata(j, s))], true)
    else
      var moved := if originalExists then [MakeRoot(s.id), Rename(original.value, s.id)] else [MakeRoot(s.id)];
      var store := d.stores[if originalExists then original.value else Generation(s.id)];
      if ChangedIdentity(d, j, s) then Plan(moved, false)
      else Plan(moved + [WriteMetadata(s.id, SealedMetadata(j, s))] + RunIndexWrites(s, store), true)
  }

  /** The loop over the journal's sources, stopping at the first error. */
  function SealAllPlan(d: Disk, j: Journal, sources: seq<Source>): Plan
    decreases |sources|
  {
    if sources == [] then Plan([], true)
    else
      var first := SealPlan(d, j, sources[0]);
      if !first.ok then first
      else
        var rest := SealAllPlan(ApplyAll(d, first.writes), j, sources[1..]);
        Plan(first.writes + rest.writes, rest.ok)
  }

  function PublishedManifest(d: Disk, j: Journal): Manifest {
    Manifest(2, if d.manifest.Some? && d.manifest.value.Manifest? then d.manifest.value.createdAt else j.startedAt,
             Some(j.next))
  }

  function DescribeWrites(d: Disk, j: Journal): seq<Write> {
    if j.next in d.metas then [MakeDirectories(j.next)]
    else [MakeDirectories(j.next), WriteMetadata(j.next, NextMetadata(j))]
  }

  /** From initializing the new store to removing the journal. */
  function PublishPlan(d: Disk, j: Journal): Plan
    requires Generation(j.next) in d.stores
  {
    var store := Initialized(d.stores[Generation(j.next)]);
    if store.format != Some(STORAGE_VERSION) then Plan([Initialize(j.next)], false)
    else if !store.complete then Plan([Initialize(j.next), WriteManifest(PublishedManifest(d, j))], false)
    else Plan([Initialize(j.next), WriteManifest(PublishedManifest(d, j)), RemoveJournal], true)
  }

  /** What is left of `resumeTransition` once every source is sealed. */
  function FinishPlan(d: Disk, j: Journal): Plan {
    if j.next in d.metas && d.metas[j.next] != NextMetadata(j) then Plan([MakeDirectories(j.next)], false)
    else
      var publish := PublishPlan(Apply(d, MakeDirectories(j.next)), j);
      Plan(DescribeWrites(d, j) + publish.writes, publish.ok)
  }

  /** `resumeTransition` */
  function ResumePlan(d: Disk, j: Journal): Plan {
    var sealing := SealAllPlan(d, j, j.sources);
    if !sealing.ok then sealing
    else
      var finish := FinishPlan(ApplyAll(d, sealing.writes), j);
      Plan(sealing.writes + finish.writes, finish.ok)
  }

  function Take(writes: seq<Write>, k: nat): (r: seq<Write>) {
    if k < |writes| then writes[..k] else writes
  }

  /** The disk after a resumed run that a crash stops after `k` writes. */
  function Attempt(d: Disk, j: Journal, k: nat): Disk {
    ApplyAll(d, Take(ResumePlan(d, j).writes, k))
  }

  function Complete(d: Disk, j: Journal): Disk {
    ApplyAll(d, ResumePlan(d, j).writes)
  }

  /** Repeated repair, the i-th run crashing after `crashes[i]` writes; without a journal there is
      nothing to resume. */
  function Recover(d: Disk, j: Journal, crashes: seq<nat>): Disk
    decreases |crashes|
  {
    if crashes == [] || d.journal.None? then d else Recover(Attempt(d, j, crashes[0]), j, crashes[1..])
  }

  // ---------------------------------------------------------------- the run itself, write by write

  /** What a crash after `allowance` writes leaves of a list of writes begun on `from`. */
  ghost predicate Done(from: Disk, allowance: nat, writes: seq<Write>, disk: Disk, budget: nat, crashed: bool) {
    && disk == ApplyAll(from, Take(writes, allowance))
    && crashed == (allowance < |writes|)
    && (!crashed ==> budget == allowance - |writes|)
  }

  /** A machine that crashes when it is about to write with no write left in its budget. */
  class Machine {
    var disk: Disk
    var budget: nat
    var crashed: bool

    constructor (disk: Disk, budget: nat)
      ensures this.disk == disk && this.budget == budget && !crashed
    {
      this.disk, this.budget, this.crashed := disk, budget, false;
    }

    method Do(w: Write, ghost from: Disk, ghost allowance: nat, ghost done: seq<Write>, ghost plan: seq<Write>)
      requires !crashed && Done(from, allowance, done, disk, budget, crashed) && done + [w] <= plan
      modifies this
      ensures crashed ==> Done(from, allowance, plan, disk, budget, crashed)
      ensures !crashed ==> Done(from, allowance, done + [w], disk, budget, crashed) && disk == Apply(old(disk), w)
    {
      if budget == 0 {
        crashed := true;
        assert Take(plan, allowance) == done == Take(done, allowance);
      } else {
        disk, budget := Apply(disk, w), budget - 1;
        ApplyAllAppend(from, done, [w]);
        assert ApplyAll(ApplyAll(from, done), [w]) == ApplyAll(disk, []);
      }
    }

    method SealTransitionSource(j: Journal, s: Source) returns (ok: bool)
      requires !crashed
      modifies this
      ensures var plan := SealPlan(old(disk), j, s);
              Done(old(disk), old(budget), plan.writes, disk, budget, crashed) && (!crashed ==> ok == plan.ok)
    {
      ghost var from, allowance, plan := disk, budget, SealPlan(disk, j, s).writes;
      var original := Original(s);
      var originalExists := original.Some? && original.value in disk.stores;
      var destinationExists := Generation(s.id) in disk.stores;
      if s.kind.FromGeneration? && s.id !in disk.roots { return false; }
      if original.Some? && originalExists == destinationExists { return false; }
      ghost var done := [MakeRoot(s.id)];
      Do(MakeRoot(s.id), from, allowance, [], plan);
      if crashed { return false; }
      if s.kind.FromGeneration? && !destinationExists {
        if s.storageVersion.Some? || s.id in disk.metas { return false; }
        Do(WriteMetadata(s.id, SealedMetadata(j, s)), from, allowance, done, plan);
        return true;
      }
      if originalExists {
        Do(Rename(original.value, s.id), from, allowance, done, plan);
        if crashed { return false; }
        done := done + [Rename(original.value, s.id)];
      }
      var store := disk.stores[Generation(s.id)];
      if ChangedIdentity(disk, j, s) { return false; }
      Do(WriteMetadata(s.id, SealedMetadata(j, s)), from, allowance, done, plan);
      if crashed { return false; }
      done := done + [WriteMetadata(s.id, SealedMetadata(j, s))];
      if s.storageVersion == Some(H1_RUN_INDEX_STORAGE_VERSION) && store.complete && store.runs.Some? {
        assert plan == done + [WriteIndex(s.id, store.runs.value)];
        Do(WriteIndex(s.id, store.runs.value), from, allowance, done, plan);
      } else {
        assert done == plan;
      }
      return true;
    }

    method FinishTransition(j: Journal) returns (ok: bool)
      requires !crashed
      modifies this
      ensures var plan := FinishPlan(old(disk), j);
              Done(old(disk), old(budget), plan.writes, disk, budget, crashed) && (!crashed ==> ok == plan.ok)
    {
      ghost var from, allowance, plan := disk, budget, FinishPlan(disk, j).writes;
      ok := DescribeNext(j, plan);
      if crashed || !ok { return false; }
      ok := PublishTransition(j, from, allowance, DescribeWrites(from, j), plan);
    }

    /** The directories and the metadata of the next generation. */
    method DescribeNext(j: Journal, ghost plan: seq<Write>) returns (ok: bool)
      requires !crashed && plan == FinishPlan(disk, j).writes
      modifies this
      ensures crashed ==> Done(old(disk), old(budget), plan, disk, budget, crashed)
      ensures !crashed ==> ok == !(j.next in old(disk).metas && old(disk).metas[j.next] != NextMetadata(j))
      ensures !crashed && !ok ==> Done(old(disk), old(budget), plan, disk, budget, crashed)
      ensures !crashed && ok ==>
                && Done(old(disk), old(budget), DescribeWrites(old(disk), j), disk, budget, crashed)
                && disk.stores == Apply(old(disk), MakeDirectories(j.next)).stores
                && disk.manifest == old(disk).manifest
    {
      ghost var from, allowance, made := disk, budget, [MakeDirectories(j.next)];
      assert [] + made == made && made <= plan;
      Do(MakeDirectories(j.next), from, allowance, [], plan);
      if crashed { return false; }
      if j.next in disk.metas { return disk.metas[j.next] == NextMetadata(j); }
      assert made + [WriteMetadata(j.next, NextMetadata(j))] == DescribeWrites(from, j) <= plan;
      Do(WriteMetadata(j.next, NextMetadata(j)), from, allowance, made, plan);
      return true;
    }

    /** From initializing the new store to removing the journal. */
    method PublishTransition(j: Journal, ghost from: Disk, ghost allowance: nat,
                             ghost described: seq<Write>, ghost plan: seq<Write>) returns (ok: bool)
      requires !crashed && Done(from, allowance, described, disk, budget, crashed)
      requires Generation(j.next) in disk.stores && described + PublishPlan(disk, j).writes == plan
      modifies this
      ensures Done(from, allowance, plan, disk, budget, crashed) && (!crashed ==> ok == PublishPlan(old(disk), j).ok)
    {
      ghost var done, tail := described, PublishPlan(disk, j).writes;
      var manifest := PublishedManifest(disk, j);
      assert tail[0] == Initialize(j.next) && plan[|done|] == tail[0];
      Do(Initialize(j.next), from, allowance, done, plan);
      if crashed { return false; }
      done := done + [Initialize(j.next)];
      if disk.stores[Generation(j.next)].format != Some(STORAGE_VERSION) {
        assert done == plan;
        return false;
      }
      assert tail[1] == WriteManifest(manifest) && plan[|done|] == tail[1];
      Do(WriteManifest(manifest), from, allowance, done, plan);
      if crashed { return false; }
      done := done + [WriteManifest(manifest)];
      if !disk.stores[Generation(j.next)].complete {
        assert done == plan;
        return false;
      }
      assert tail[2] == RemoveJournal && done + [RemoveJournal] == plan;
      Do(RemoveJournal, from, allowance, done, plan);
      return true;
    }

    /** The loop of `resumeTransition` over the sources. */
    method SealAllSources(j: Journal) returns (ok: bool)
      requires !crashed
      modifies this
      ensures var plan := SealAllPlan(old(disk), j, j.sources);
              Done(old(disk), old(budget), plan.writes, disk, budget, crashed) && (!crashed ==> ok == plan.ok)
    {
      ghost var from, allowance, sealing := disk, budget, SealAllPlan(disk, j, j.sources);
      ghost var done: seq<Write> := [];
      assert j.sources[0..] == j.sources && done + sealing.writes == sealing.writes;
      for i := 0 to |j.sources|
        invariant !crashed && Done(from, allowance, done, disk, budget, false)
        invariant Remains(sealing, done, disk, j, i)
      {
        ghost var before, left, first := disk, budget, SealPlan(disk, j, j.sources[i]);
        ok := SealTransitionSource(j, j.sources[i]);
        SealedOne(from, allowance, sealing, done, j, i, before, left, disk, budget, crashed);
        if crashed || !ok {
          return false;
        }
        done := done + first.writes;
      }
      assert j.sources[|j.sources|..] == [] && done + [] == done;
      return true;
    }

    /** One run of `resumeTransition` does the writes of its plan in order, up to the crash. */
    method ResumeTransition(j: Journal) returns (ok: bool)
      requires !crashed
      modifies this
      ensures var plan := ResumePlan(old(disk), j);
              Done(old(disk), old(budget), plan.writes, disk, budget, crashed) && (!crashed ==> ok == plan.ok)
    {
      ghost var from, allowance, done := disk, budget, SealAllPlan(disk, j, j.sources).writes;
      ok := SealAllSources(j);
      if crashed {
        DoneLonger(from, allowance, done, ResumePlan(from, j).writes, disk, budget);
        return false;
      }
      if !ok {
        return false;
      }
      FullyDone(from, allowance, done, disk, budget);
      ghost var middle, rest := disk, budget;
      ok := FinishTransition(j);
      DoneAppend(from, allowance, done, FinishPlan(middle, j).writes, middle, rest, disk, budget, crashed);
    }
  }

  /** What is left of the sealing is the sealing of the sources from `i` on. */
  predicate Remains(sealing: Plan, done: seq<Write>, disk: Disk, j: Journal, i: nat)
    requires i <= |j.sources|
  {
    var rest := SealAllPlan(disk, j, j.sources[i..]);
    sealing.writes == done + rest.writes && sealing.ok == rest.ok
  }

  lemma SealedOne(from: Disk, allowance: nat, sealing: Plan, done: seq<Write>, j: Journal, i: nat,
                  before: Disk, left: nat, disk: Disk, budget: nat, crashed: bool)
    requires i < |j.sources| && Remains(sealing, done, before, j, i)
    requires Done(from, allowance, done, before, left, false)
    requires Done(before, left, SealPlan(before, j, j.sources[i]).writes, disk, budget, crashed)
    ensures var first := SealPlan(before, j, j.sources[i]);
            && (crashed || !first.ok ==> Done(from, allowance, sealing.writes, disk, budget, crashed))
            && (!first.ok ==> !sealing.ok)
            && (!crashed && first.ok ==>
                  && Done(from, allowance, done + first.writes, disk, budget, false)
                  && Remains(sealing, done + first.writes, disk, j, i + 1))
  {
    var first := SealPlan(before, j, j.sources[i]);
    SealAllNext(before, j, i);
    DoneAppend(from, allowance, done, first.writes, before, left, disk, budget, crashed);
    if first.ok {
      var rest := SealAllPlan(ApplyAll(before, first.writes), j, j.sources[i + 1..]).writes;
      RemainsWrites(sealing, done, before, j, i);
      if crashed {
        DoneLonger(from, allowance, done + first.writes, sealing.writes, disk, budget);
      } else {
        FullyDone(before, left, first.writes, disk, budget);
      }
    }
  }

  /** What remains begins with sealing the next source. */
  lemma RemainsWrites(sealing: Plan, done: seq<Write>, before: Disk, j: Journal, i: nat)
    requires i < |j.sources| && Remains(sealing, done, before, j, i) && SealPlan(before, j, j.sources[i]).ok
    ensures var first := SealPlan(before, j, j.sources[i]);
            var rest := SealAllPlan(ApplyAll(before, first.writes), j, j.sources[i + 1..]);
            sealing.writes == done + first.writes + rest.writes && sealing.ok == rest.ok
  {
    SealAllNext(before, j, i);
  }

  lemma FullyDone(from: Disk, allowance: nat, writes: seq<Write>, disk: Disk, budget: nat)
    requires Done(from, allowance, writes, disk, budget, false)
    ensures disk == ApplyAll(from, writes)
  {
  }

  lemma SealAllNext(d: Disk, j: Journal, i: nat)
    requires i < |j.sources|
    ensures var first, plan := SealPlan(d, j, j.sources[i]), SealAllPlan(d, j, j.sources[i..]);
            if !first.ok then plan == first
            else
              var rest := SealAllPlan(ApplyAll(d, first.writes), j, j.sources[i + 1..]);
              plan.writes == first.writes + rest.writes && plan.ok == rest.ok
  {
    assert j.sources[i..][0] == j.sources[i] && j.sources[i..][1..] == j.sources[i + 1..];
  }

  lemma DoneAppend(from: Disk, allowance: nat, a: seq<Write>, b: seq<Write>,
                   middle: Disk, left: nat, disk: Disk, budget: nat, crashed: bool)
    requires Done(from, allowance, a, middle, left, false) && Done(middle, left, b, disk, budget, crashed)
    ensures Done(from, allowance, a + b, disk, budget, crashed)
  {
    ApplyAllAppend(from, a, Take(b, left));
    assert Take(a + b, allowance) == a + Take(b, left);
  }

  lemma DoneLonger(from: Disk, allowance: nat, a: seq<Write>, longer: seq<Write>, disk: Disk, budget: nat)
    requires Done(from, allowance, a, disk, budget, true) && a <= longer
    ensures Done(from, allowance, longer, disk, budget, true)
  {
    assert Take(a, allowance) == Take(longer, allowance);
  }

  lemma {:induction false} ApplyAllAppend(d: Disk, a: seq<Write>, b: seq<Write>)
    ensures ApplyAll(d, a + b) == ApplyAll(ApplyAll(d, a), b)
    decreases |a|
  {
    if a == [] {
      assert a + b == b;
    } else {
      assert (a + b)[0] == a[0] && (a + b)[1..] == a[1..] + b;
      ApplyAllAppend(Apply(d, a[0]), a[1..], b);
    }
  }

  lemma TakeSplit(d: Disk, a: seq<Write>, b: seq<Write>, k: nat)
    ensures k < |a| ==> Take(a + b, k) == Take(a, k)
    ensures k >= |a| ==> ApplyAll(d, Take(a + b, k)) == ApplyAll(ApplyAll(d, a), Take(b, k - |a|))
  {
    if k < |a| {
      assert Take(a + b, k) == Take(a, k);
    } else {
      assert Take(a + b, k) == a + Take(b, k - |a|);
      ApplyAllAppend(d, a, Take(b, k - |a|));
    }
  }

  // ---------------------------------------------------------------- sealing and re-sealing one source

  /** A generation without a store directory: its metadata is written once and refused on a replay. */
  predicate Storeless(d: Disk, s: Source) {
    s.kind.FromGeneration? && Generation(s.id) !in d.stores
  }

  predicate Sealed(d: Disk, j: Journal, s: Source) {
    && s.id in d.roots && Generation(s.id) in d.stores
    && (Original(s).Some? ==> Original(s).value !in d.stores)
    && s.id in d.metas && d.metas[s.id] == SealedMetadata(j, s)
    && forall w | w in RunIndexWrites(s, d.stores[Generation(s.id)]) :: s.id in d.indexes && d.indexes[s.id] == w.runs
  }

  lemma ApplyNothing(d: Disk, writes: seq<Write>)
    requires forall w | w in writes :: Apply(d, w) == d
    ensures ApplyAll(d, writes) == d
    decreases |writes|
  {
    if writes != [] {
      assert writes[0] in writes;
      ApplyNothing(d, writes[1..]);
    }
  }

  lemma SealedAgain(d: Disk, j: Journal, s: Source)
    requires Sealed(d, j, s)
    ensures SealPlan(d, j, s).ok && forall w | w in SealPlan(d, j, s).writes :: Apply(d, w) == d
  {
    var store := d.stores[Generation(s.id)];
    forall w | w in SealPlan(d, j, s).writes ensures Apply(d, w) == d {
      if w.MakeRoot? {
        assert d.roots + {s.id} == d.roots;
      } else if w.WriteMetadata? {
        assert d.metas[s.id := SealedMetadata(j, s)] == d.metas;
      } else {
        assert w in RunIndexWrites(s, store);
        assert d.indexes[s.id := w.runs] == d.indexes;
      }
    }
  }

  function Without(stores: map<Place, Store>, place: Option<Place>): map<Place, Store> {
    if place.Some? then stores - {place.value} else stores
  }

  function SourceStore(d: Disk, s: Source): Store
    requires Generation(s.id) in d.stores || (Original(s).Some? && Original(s).value in d.stores)
  {
    if Original(s).Some? && Original(s).value in d.stores then d.stores[Original(s).value]
    else d.stores[Generation(s.id)]
  }

  /** The disk with the source sealed, in closed form. */
  function SealResult(d: Disk, j: Journal, s: Source): Disk
    requires Generation(s.id) in d.stores || (Original(s).Some? && Original(s).value in d.stores)
  {
    var store := SourceStore(d, s);
    d.(roots := d.roots + {s.id},
       stores := Without(d.stores, Original(s))[Generation(s.id) := store],
       metas := d.metas[s.id := SealedMetadata(j, s)],
       indexes := if RunIndexWrites(s, store) == [] then d.indexes else d.indexes[s.id := store.runs.value])
  }

  lemma ApplyAllSnoc(d: Disk, writes: seq<Write>, w: Write)
    ensures ApplyAll(d, writes + [w]) == Apply(ApplyAll(d, writes), w)
  {
    ApplyAllAppend(d, writes, [w]);
    assert ApplyAll(ApplyAll(d, writes), [w]) == ApplyAll(Apply(ApplyAll(d, writes), w), []);
  }

  /** The disk after making the root and, where the original is still there, renaming it. */
  function Moved(d: Disk, s: Source): Disk
    requires Generation(s.id) in d.stores || (Original(s).Some? && Original(s).value in d.stores)
  {
    d.(roots := d.roots + {s.id},
       stores := Without(d.stores, Original(s))[Generation(s.id) := SourceStore(d, s)])
  }

  /** Every crash point of sealing: nothing done, root made, store moved, metadata written, sealed. */
  lemma SealCrashPoints(d: Disk, j: Journal, s: Source, k: nat)
    requires SealPlan(d, j, s).ok && !Storeless(d, s)
    ensures ApplyAll(d, SealPlan(d, j, s).writes) == SealResult(d, j, s)
    ensures var crash := ApplyAll(d, Take(SealPlan(d, j, s).writes, k));
            || crash == d
            || crash == d.(roots := d.roots + {s.id})
            || crash == Moved(d, s)
            || crash == Moved(d, s).(metas := d.metas[s.id := SealedMetadata(j, s)])
            || crash == SealResult(d, j, s)
  {
    SealWrites(d, j, s);
    if 0 < k < |SealPlan(d, j, s).writes| {
      SealPrefix(d, j, s, k);
    }
  }

  function UpToMetadata(d: Disk, j: Journal, s: Source): seq<Write> {
    MoveWrites(d, s) + [WriteMetadata(s.id, SealedMetadata(j, s))]
  }

  /** The disk after the writes of sealing, one by one. */
  lemma SealWrites(d: Disk, j: Journal, s: Source)
    requires SealPlan(d, j, s).ok && !Storeless(d, s)
    ensures ApplyAll(d, MoveWrites(d, s)) == Moved(d, s)
    ensures ApplyAll(d, MoveWrites(d, s)[..1]) == d.(roots := d.roots + {s.id})
    ensures ApplyAll(d, UpToMetadata(d, j, s)) == Moved(d, s).(metas := d.metas[s.id := SealedMetadata(j, s)])
    ensures ApplyAll(d, SealPlan(d, j, s).writes) == SealResult(d, j, s)
  {
    var writes, index := SealPlan(d, j, s).writes, RunIndexWrites(s, SourceStore(d, s));
    var w3 := UpToMetadata(d, j, s);
    assert writes == w3 + index;
    MoveWritesMove(d, s);
    ApplyAllSnoc(d, MoveWrites(d, s), WriteMetadata(s.id, SealedMetadata(j, s)));
    if index == [] {
      assert writes == w3;
    } else {
      ApplyAllSnoc(d, w3, index[0]);
      assert writes == w3 + [index[0]];
    }
  }

  lemma SealPrefix(d: Disk, j: Journal, s: Source, k: nat)
    requires SealPlan(d, j, s).ok && !Storeless(d, s) && 0 < k < |SealPlan(d, j, s).writes|
    ensures var t := Take(SealPlan(d, j, s).writes, k);
            t == MoveWrites(d, s)[..1] || t == MoveWrites(d, s) || t == UpToMetadata(d, j, s)
  {
    var writes, w2, w3 := SealPlan(d, j, s).writes, MoveWrites(d, s), UpToMetadata(d, j, s);
    assert writes == w3 + RunIndexWrites(s, SourceStore(d, s));
    assert Take(writes, k) == if k == 1 then w2[..1] else if k == |w2| then w2 else w3;
  }

  function MoveWrites(d: Disk, s: Source): seq<Write> {
    if Original(s).Some? && Original(s).value in d.stores
    then [MakeRoot(s.id), Rename(Original(s).value, s.id)] else [MakeRoot(s.id)]
  }

  lemma MoveWritesMove(d: Disk, s: Source)
    requires Generation(s.id) in d.stores || (Original(s).Some? && Original(s).value in d.stores)
    ensures ApplyAll(d, MoveWrites(d, s)) == Moved(d, s)
    ensures ApplyAll(d, MoveWrites(d, s)[..1]) == d.(roots := d.roots + {s.id})
  {
    var w := MoveWrites(d, s);
    assert w[..1] == [] + [MakeRoot(s.id)];
    ApplyAllSnoc(d, [], MakeRoot(s.id));
    if |w| == 2 {
      assert w == w[..1] + [w[1]];
      ApplyAllSnoc(d, w[..1], w[1]);
    } else {
      assert w == w[..1];
      assert Moved(d, s).stores == d.stores;
    }
  }

  /** A crash while sealing a source is made good by sealing it again, and the end is the same. */
  lemma SealResumes(d: Disk, j: Journal, s: Source, k: nat)
    requires SealPlan(d, j, s).ok && !Storeless(d, s)
    ensures var writes := SealPlan(d, j, s).writes;
            var crash := ApplyAll(d, Take(writes, k));
            && Sealed(ApplyAll(d, writes), j, s) && !Storeless(crash, s)
            && SealPlan(crash, j, s).ok && ApplyAll(crash, SealPlan(crash, j, s).writes) == ApplyAll(d, writes)
  {
    var crash := ApplyAll(d, Take(SealPlan(d, j, s).writes, k));
    SealCrashPoints(d, j, s, k);
    SealsAlike(d, j, s, crash);
    SealCrashPoints(crash, j, s, 0);
  }

  /** Every crash point can still be sealed, with the same result. */
  lemma SealsAlike(d: Disk, j: Journal, s: Source, crash: Disk)
    requires SealPlan(d, j, s).ok && !Storeless(d, s)
    requires || crash == d
             || crash == d.(roots := d.roots + {s.id})
             || crash == Moved(d, s)
             || crash == Moved(d, s).(metas := d.metas[s.id := SealedMetadata(j, s)])
             || crash == SealResult(d, j, s)
    ensures SealPlan(crash, j, s).ok && !Storeless(crash, s)
    ensures SealResult(crash, j, s) == SealResult(d, j, s) && Sealed(SealResult(d, j, s), j, s)
  {
    var end := SealResult(d, j, s);
    assert SourceStore(crash, s) == SourceStore(d, s);
    assert SealResult(crash, j, s).roots == end.roots;
    assert SealResult(crash, j, s).stores == end.stores;
    assert SealResult(crash, j, s).metas == end.metas;
    assert SealResult(crash, j, s).indexes == end.indexes;
  }

  // ---------------------------------------------------------------- all sources

  predicate DistinctIds(sources: seq<Source>) {
    forall a, b | 0 <= a < b < |sources| :: sources[a].id != sources[b].id
  }

  predicate DistinctOriginals(sources: seq<Source>) {
    forall a, b | 0 <= a < b < |sources| ::
      Original(sources[a]).Some? ==> Original(sources[a]) != Original(sources[b])
  }

  /** The write has nothing to do with the source, its original or its destination. */
  predicate Spares(w: Write, s: Source) {
    match w
    case Rename(from, id) => id != s.id && Some(from) != Original(s) && !from.Generation?
    case WriteMetadata(id, _) => id != s.id
    case WriteIndex(id, _) => id != s.id
    case MakeDirectories(id) => id != s.id
    case Initialize(id) => id != s.id
    case _ => true
  }

  lemma {:induction false} SparedStaysSealed(d: Disk, j: Journal, writes: seq<Write>, s: Source)
    requires Sealed(d, j, s) && forall w | w in writes :: Spares(w, s)
    ensures Sealed(ApplyAll(d, writes), j, s)
    decreases |writes|
  {
    if writes != [] {
      assert writes[0] in writes && Spares(writes[0], s);
      assert Sealed(Apply(d, writes[0]), j, s);
      SparedStaysSealed(Apply(d, writes[0]), j, writes[1..], s);
    }
  }

  lemma SealPlanSpares(d: Disk, j: Journal, t: Source, s: Source)
    requires s.id != t.id && (Original(s).Some? ==> Original(s) != Original(t) || Original(s).value !in d.stores)
    ensures forall w | w in SealPlan(d, j, t).writes :: Spares(w, s)
  {
  }

  lemma {:induction false} SealAllSpares(d: Disk, j: Journal, sources: seq<Source>, s: Source)
    requires Sealed(d, j, s) && forall t | t in sources :: t.id != s.id
    ensures forall w | w in SealAllPlan(d, j, sources).writes :: Spares(w, s)
    decreases |sources|
  {
    if sources != [] {
      var first := SealPlan(d, j, sources[0]);
      SealPlanSpares(d, j, sources[0], s);
      if first.ok {
        SparedStaysSealed(d, j, first.writes, s);
        SealAllSpares(ApplyAll(d, first.writes), j, sources[1..], s);
      }
    }
  }

  /** No write takes a store away from a generation. */
  predicate KeepsGenerations(w: Write) {
    w.Rename? ==> !w.from.Generation?
  }

  lemma {:induction false} GenerationsStay(d: Disk, writes: seq<Write>, id: Id)
    requires Generation(id) in d.stores && forall w | w in writes :: KeepsGenerations(w)
    ensures Generation(id) in ApplyAll(d, writes).stores
    decreases |writes|
  {
    if writes != [] {
      assert writes[0] in writes;
      GenerationsStay(Apply(d, writes[0]), writes[1..], id);
    }
  }

  lemma {:induction false} SealAllKeepsGenerations(d: Disk, j: Journal, sources: seq<Source>)
    ensures forall w | w in SealAllPlan(d, j, sources).writes :: KeepsGenerations(w)
    decreases |sources|
  {
    if sources != [] {
      var first := SealPlan(d, j, sources[0]);
      if first.ok {
        SealAllKeepsGenerations(ApplyAll(d, first.writes), j, sources[1..]);
      }
    }
  }

  lemma TakeIn(writes: seq<Write>, k: nat)
    ensures forall w | w in Take(writes, k) :: w in writes
  {
  }

  ghost predicate AllSealed(d: Disk, j: Journal, sources: seq<Source>) {
    forall s | s in sources :: Sealed(d, j, s)
  }

  ghost predicate NoneStoreless(d: Disk, sources: seq<Source>) {
    forall s | s in sources :: !Storeless(d, s)
  }

  lemma NoneBecomesStoreless(d: Disk, writes: seq<Write>, sources: seq<Source>)
    requires NoneStoreless(d, sources) && forall w | w in writes :: KeepsGenerations(w)
    ensures NoneStoreless(ApplyAll(d, writes), sources)
  {
    forall s | s in sources ensures !Storeless(ApplyAll(d, writes), s) {
      assert !Storeless(d, s);
      if s.kind.FromGeneration? {
        GenerationsStay(d, writes, s.id);
      }
    }
  }

  /** Once every source is sealed, sealing them all again changes nothing. */
  lemma {:induction false} AllSealedAgain(d: Disk, j: Journal, sources: seq<Source>)
    requires AllSealed(d, j, sources)
    ensures SealAllPlan(d, j, sources).ok && forall w | w in SealAllPlan(d, j, sources).writes :: Apply(d, w) == d
    decreases |sources|
  {
    if sources != [] {
      assert sources[0] in sources;
      SealedAgain(d, j, sources[0]);
      ApplyNothing(d, SealPlan(d, j, sources[0]).writes);
      AllSealedAgain(d, j, sources[1..]);
    }
  }

  /** The sealing loop seals its sources, and sealing the others leaves the first one sealed. */
  lemma {:induction false} SealAllSeals(d: Disk, j: Journal, sources: seq<Source>)
    requires SealAllPlan(d, j, sources).ok && DistinctIds(sources) && NoneStoreless(d, sources)
    ensures AllSealed(ApplyAll(d, SealAllPlan(d, j, sources).writes), j, sources)
    decreases |sources|
  {
    if sources != [] {
      var s, others := sources[0], sources[1..];
      var first := SealPlan(d, j, s).writes;
      var next := ApplyAll(d, first);
      var rest := SealAllPlan(next, j, others).writes;
      assert s in sources;
      SealResumes(d, j, s, |first|);
      ApplyAllAppend(d, first, rest);
      NoneBecomesStoreless(d, first, others);
      SealAllSpares(next, j, others, s);
      SparedStaysSealed(next, j, rest, s);
      SealAllSeals(next, j, others);
    }
  }

  /** A crash while the first source is being sealed. */
  lemma CrashInFirst(d: Disk, j: Journal, sources: seq<Source>, k: nat)
    requires SealAllPlan(d, j, sources).ok && sources != [] && !Storeless(d, sources[0])
    requires k < |SealPlan(d, j, sources[0]).writes|
    ensures var writes := SealAllPlan(d, j, sources).writes;
            var crash := ApplyAll(d, Take(writes, k));
            && SealAllPlan(crash, j, sources).ok
            && ApplyAll(crash, SealAllPlan(crash, j, sources).writes) == ApplyAll(d, writes)
  {
    var s, others := sources[0], sources[1..];
    var first := SealPlan(d, j, s).writes;
    var next := ApplyAll(d, first);
    var rest := SealAllPlan(next, j, others).writes;
    SealResumes(d, j, s, k);
    ApplyAllAppend(d, first, rest);
    TakeSplit(d, first, rest, k);
    var crash := ApplyAll(d, Take(first, k));
    ApplyAllAppend(crash, SealPlan(crash, j, s).writes, rest);
  }

  /** A crash in the rest of the loop, once a crash there is known to be made good. */
  lemma CrashInRest(d: Disk, j: Journal, sources: seq<Source>, k: nat)
    requires SealAllPlan(d, j, sources).ok && sources != [] && DistinctIds(sources) && !Storeless(d, sources[0])
    requires k >= |SealPlan(d, j, sources[0]).writes|
    requires var first := SealPlan(d, j, sources[0]).writes;
             var next := ApplyAll(d, first);
             var rest := SealAllPlan(next, j, sources[1..]).writes;
             var crash := ApplyAll(next, Take(rest, k - |first|));
             && SealAllPlan(crash, j, sources[1..]).ok
             && ApplyAll(crash, SealAllPlan(crash, j, sources[1..]).writes) == ApplyAll(next, rest)
    ensures var writes := SealAllPlan(d, j, sources).writes;
            var crash := ApplyAll(d, Take(writes, k));
            && SealAllPlan(crash, j, sources).ok
            && ApplyAll(crash, SealAllPlan(crash, j, sources).writes) == ApplyAll(d, writes)
  {
    var s, others := sources[0], sources[1..];
    var first := SealPlan(d, j, s).writes;
    var next := ApplyAll(d, first);
    var rest := SealAllPlan(next, j, others).writes;
    SealResumes(d, j, s, |first|);
    ApplyAllAppend(d, first, rest);
    TakeSplit(d, first, rest, k);
    SealAllSpares(next, j, others, s);
    var left := k - |first|;
    var crash := ApplyAll(next, Take(rest, left));
    TakeIn(rest, left);
    SparedStaysSealed(next, j, Take(rest, left), s);
    SealedAgain(crash, j, s);
    ApplyNothing(crash, SealPlan(crash, j, s).writes);
    ApplyAllAppend(crash, SealPlan(crash, j, s).writes, SealAllPlan(crash, j, others).writes);
  }

  /** A crash anywhere in the sealing loop is made good by running the loop again. */
  lemma {:induction false} SealAllResumes(d: Disk, j: Journal, sources: seq<Source>, k: nat)
    requires SealAllPlan(d, j, sources).ok && DistinctIds(sources) && NoneStoreless(d, sources)
    ensures var writes := SealAllPlan(d, j, sources).writes;
            var crash := ApplyAll(d, Take(writes, k));
            && SealAllPlan(crash, j, sources).ok
            && ApplyAll(crash, SealAllPlan(crash, j, sources).writes) == ApplyAll(d, writes)
            && AllSealed(ApplyAll(d, writes), j, sources)
    decreases |sources|
  {
    SealAllSeals(d, j, sources);
    if sources != [] {
      var first := SealPlan(d, j, sources[0]).writes;
      assert sources[0] in sources;
      if k < |first| {
        CrashInFirst(d, j, sources, k);
      } else {
        NoneBecomesStoreless(d, first, sources[1..]);
        SealAllResumes(ApplyAll(d, first), j, sources[1..], k - |first|);
        CrashInRest(d, j, sources, k);
      }
    }
  }

  // ---------------------------------------------------------------- the whole transition

  predicate ValidJournal(j: Journal) {
    DistinctIds(j.sources) && forall s | s in j.sources :: s.id != j.next
  }

  lemma FinishSpares(d: Disk, j: Journal, s: Source)
    requires s.id != j.next
    ensures forall w | w in FinishPlan(d, j).writes :: Spares(w, s) && KeepsGenerations(w)
  {
  }

  /** The disk after finishing, in closed form. */
  function FinishResult(d: Disk, j: Journal): Disk {
    var made := Apply(d, MakeDirectories(j.next));
    d.(roots := made.roots,
       stores := made.stores[Generation(j.next) := Initialized(made.stores[Generation(j.next)])],
       metas := d.metas[j.next := NextMetadata(j)],
       manifest := Some(PublishedManifest(d, j)),
       journal := None)
  }

  function UpToStore(d: Disk, j: Journal): seq<Write> {
    DescribeWrites(d, j) + [Initialize(j.next)]
  }

  function UpToManifest(d: Disk, j: Journal): seq<Write> {
    UpToStore(d, j) + [WriteManifest(PublishedManifest(d, j))]
  }

  /** The disk after describing the next generation, with its directories and then with its metadata. */
  lemma FinishDescribes(d: Disk, j: Journal)
    requires FinishPlan(d, j).ok
    ensures ApplyAll(d, [MakeDirectories(j.next)]) == Apply(d, MakeDirectories(j.next))
    ensures ApplyAll(d, DescribeWrites(d, j)) == Apply(d, MakeDirectories(j.next)).(metas := FinishResult(d, j).metas)
  {
    var w1 := [MakeDirectories(j.next)];
    ApplyAllSnoc(d, [], MakeDirectories(j.next));
    assert [] + w1 == w1;
    if j.next in d.metas {
      assert d.metas == FinishResult(d, j).metas;
    } else {
      assert DescribeWrites(d, j) == w1 + [WriteMetadata(j.next, NextMetadata(j))];
      ApplyAllSnoc(d, w1, WriteMetadata(j.next, NextMetadata(j)));
    }
  }

  /** The disk after the writes that follow, one by one. */
  lemma FinishPublishes(d: Disk, j: Journal)
    requires FinishPlan(d, j).ok
    ensures FinishPlan(d, j).writes == UpToManifest(d, j) + [RemoveJournal]
    ensures var made, end := Apply(d, MakeDirectories(j.next)), FinishResult(d, j);
            && ApplyAll(d, UpToStore(d, j)) == made.(metas := end.metas, stores := end.stores)
            && ApplyAll(d, UpToManifest(d, j)) == end.(journal := d.journal)
            && ApplyAll(d, FinishPlan(d, j).writes) == end
  {
    FinishDescribes(d, j);
    assert FinishPlan(d, j).writes == UpToManifest(d, j) + [RemoveJournal];
    ApplyAllSnoc(d, DescribeWrites(d, j), Initialize(j.next));
    ApplyAllSnoc(d, UpToStore(d, j), WriteManifest(PublishedManifest(d, j)));
    ApplyAllSnoc(d, UpToManifest(d, j), RemoveJournal);
  }

  /** Every crash point of finishing: nothing, directories, metadata, store, manifest, journal removed. */
  lemma FinishCrashPoints(d: Disk, j: Journal, k: nat)
    requires FinishPlan(d, j).ok
    ensures ApplyAll(d, FinishPlan(d, j).writes) == FinishResult(d, j)
    ensures var crash := ApplyAll(d, Take(FinishPlan(d, j).writes, k));
            var made, end := Apply(d, MakeDirectories(j.next)), FinishResult(d, j);
            || (k < |FinishPlan(d, j).writes| &&
                (|| crash == d
                 || crash == made
                 || crash == made.(metas := end.metas)
                 || crash == made.(metas := end.metas, stores := end.stores)
                 || crash == end.(journal := d.journal)))
            || (k >= |FinishPlan(d, j).writes| && crash == end)
  {
    var writes := FinishPlan(d, j).writes;
    FinishDescribes(d, j);
    FinishPublishes(d, j);
    if 0 < k < |writes| {
      FinishPrefix(d, j, k);
    }
  }

  lemma FinishPrefix(d: Disk, j: Journal, k: nat)
    requires FinishPlan(d, j).ok && 0 < k < |FinishPlan(d, j).writes|
    ensures var t := Take(FinishPlan(d, j).writes, k);
            t == UpToManifest(d, j) || t == UpToStore(d, j) || t == DescribeWrites(d, j) || t == [MakeDirectories(j.next)]
  {
    var t, w4, w3 := Take(FinishPlan(d, j).writes, k), UpToManifest(d, j), UpToStore(d, j);
    FinishPublishes(d, j);
    assert t == if k == |w4| then w4 else if k == |w3| then w3
                else if k == |DescribeWrites(d, j)| then DescribeWrites(d, j) else [MakeDirectories(j.next)];
  }

  lemma FinishesAlike(d: Disk, j: Journal, crash: Disk)
    requires FinishPlan(d, j).ok
    requires var made, end := Apply(d, MakeDirectories(j.next)), FinishResult(d, j);
             || crash == d || crash == made || crash == made.(metas := end.metas)
             || crash == made.(metas := end.metas, stores := end.stores)
             || crash == end.(journal := d.journal)
    ensures FinishPlan(crash, j).ok && crash.journal == d.journal && FinishResult(crash, j) == FinishResult(d, j)
  {
    var end := FinishResult(d, j);
    var made := Apply(d, MakeDirectories(j.next));
    var remade := Apply(crash, MakeDirectories(j.next));
    assert Generation(j.next) in made.stores && Generation(j.next) in remade.stores;
    assert Initialized(remade.stores[Generation(j.next)]) == Initialized(made.stores[Generation(j.next)]);
    assert FinishResult(crash, j).roots == end.roots;
    assert FinishResult(crash, j).stores == end.stores;
    assert FinishResult(crash, j).metas == end.metas;
    assert FinishResult(crash, j).manifest == end.manifest;
  }

  lemma FinishResumes(d: Disk, j: Journal, k: nat)
    requires FinishPlan(d, j).ok && k < |FinishPlan(d, j).writes|
    ensures var crash := ApplyAll(d, Take(FinishPlan(d, j).writes, k));
            && FinishPlan(crash, j).ok && crash.journal == d.journal
            && ApplyAll(crash, FinishPlan(crash, j).writes) == ApplyAll(d, FinishPlan(d, j).writes)
  {
    var crash := ApplyAll(d, Take(FinishPlan(d, j).writes, k));
    FinishCrashPoints(d, j, k);
    FinishesAlike(d, j, crash);
    FinishCrashPoints(crash, j, 0);
  }

  lemma {:induction false} SealAllKeepsJournal(d: Disk, writes: seq<Write>)
    requires forall w | w in writes :: !w.RemoveJournal? && !w.WriteManifest?
    ensures ApplyAll(d, writes).journal == d.journal && ApplyAll(d, writes).manifest == d.manifest
    decreases |writes|
  {
    if writes != [] {
      assert writes[0] in writes;
      SealAllKeepsJournal(Apply(d, writes[0]), writes[1..]);
    }
  }

  lemma {:induction false} SealAllLeavesJournal(d: Disk, j: Journal, sources: seq<Source>)
    ensures forall w | w in SealAllPlan(d, j, sources).writes :: !w.RemoveJournal? && !w.WriteManifest?
    decreases |sources|
  {
    if sources != [] {
      var first := SealPlan(d, j, sources[0]);
      if first.ok {
        SealAllLeavesJournal(ApplyAll(d, first.writes), j, sources[1..]);
      }
    }
  }

  /** Every source sealed and the new store there in the current format. */
  ghost predicate Ready(d: Disk, j: Journal) {
    && AllSealed(d, j, j.sources)
    && Generation(j.next) in d.stores && d.stores[Generation(j.next)].format == Some(STORAGE_VERSION)
    && j.next in d.metas && d.metas[j.next] == NextMetadata(j)
  }

  predicate Publishes(d: Disk, j: Journal) {
    d.manifest.Some? && d.manifest.value.Manifest? && d.manifest.value.active == Some(j.next)
  }

  /** What holds of the disk in every crash state of a transition. */
  ghost predicate Resumable(d: Disk, j: Journal) {
    && d.journal == Some(j) && ResumePlan(d, j).ok && NoneStoreless(d, j.sources)
    && (Publishes(d, j) ==> Ready(d, j))
  }

  lemma CompleteIsReady(d: Disk, j: Journal)
    requires Resumable(d, j) && ValidJournal(j)
    ensures var middle := ApplyAll(d, SealAllPlan(d, j, j.sources).writes);
            && Complete(d, j) == ApplyAll(middle, FinishPlan(middle, j).writes)
            && AllSealed(middle, j, j.sources) && middle.journal == Some(j) && middle.manifest == d.manifest
    ensures Complete(d, j).journal.None? && Publishes(Complete(d, j), j) && Ready(Complete(d, j), j)
  {
    var sealing := SealAllPlan(d, j, j.sources).writes;
    var middle := ApplyAll(d, sealing);
    var finish := FinishPlan(middle, j).writes;
    ApplyAllAppend(d, sealing, finish);
    SealAllResumes(d, j, j.sources, 0);
    SealAllLeavesJournal(d, j, j.sources);
    SealAllKeepsJournal(d, sealing);
    FinishCrashPoints(middle, j, |finish|);
    FinishKeepsSealed(middle, j, |finish|);
  }

  /** One crashed run: either the journal is still there and the rest can be made good with the same
      end, or the run had finished. */
  lemma AttemptConverges(d: Disk, j: Journal, k: nat)
    requires Resumable(d, j) && ValidJournal(j)
    ensures var crash := Attempt(d, j, k);
            if k < |ResumePlan(d, j).writes| then Resumable(crash, j) && Complete(crash, j) == Complete(d, j)
            else crash == Complete(d, j)
  {
    var sealing := SealAllPlan(d, j, j.sources).writes;
    var middle := ApplyAll(d, sealing);
    var finish := FinishPlan(middle, j).writes;
    CompleteIsReady(d, j);
    TakeSplit(d, sealing, finish, k);
    if k < |sealing| {
      SealingCrash(d, j, k);
    } else if k < |sealing| + |finish| {
      if Publishes(d, j) {
        AllSealedAgain(d, j, j.sources);
        ApplyNothing(d, sealing);
      }
      FinishingCrash(middle, j, k - |sealing|);
    }
  }

  lemma SealingCrash(d: Disk, j: Journal, k: nat)
    requires Resumable(d, j) && ValidJournal(j) && k < |SealAllPlan(d, j, j.sources).writes|
    ensures var crash := ApplyAll(d, Take(SealAllPlan(d, j, j.sources).writes, k));
            Resumable(crash, j) && Complete(crash, j) == Complete(d, j)
  {
    var sealing := SealAllPlan(d, j, j.sources).writes;
    var crash, middle := ApplyAll(d, Take(sealing, k)), ApplyAll(d, sealing);
    TakeIn(sealing, k);
    SealAllResumes(d, j, j.sources, k);
    SealAllLeavesJournal(d, j, j.sources);
    SealAllKeepsJournal(d, Take(sealing, k));
    SealAllKeepsGenerations(d, j, j.sources);
    NoneBecomesStoreless(d, Take(sealing, k), j.sources);
    ApplyAllAppend(d, sealing, FinishPlan(middle, j).writes);
    ApplyAllAppend(crash, SealAllPlan(crash, j, j.sources).writes, FinishPlan(middle, j).writes);
    if Publishes(d, j) {
      AllSealedAgain(d, j, j.sources);
      ApplyNothing(d, Take(sealing, k));
    }
  }

  lemma FinishKeepsSealed(d: Disk, j: Journal, k: nat)
    requires AllSealed(d, j, j.sources) && ValidJournal(j)
    ensures AllSealed(ApplyAll(d, Take(FinishPlan(d, j).writes, k)), j, j.sources)
  {
    forall s | s in j.sources ensures Sealed(ApplyAll(d, Take(FinishPlan(d, j).writes, k)), j, s) {
      FinishSpares(d, j, s);
      TakeIn(FinishPlan(d, j).writes, k);
      SparedStaysSealed(d, j, Take(FinishPlan(d, j).writes, k), s);
    }
  }

  lemma FinishingCrash(d: Disk, j: Journal, k: nat)
    requires d.journal == Some(j) && ValidJournal(j) && AllSealed(d, j, j.sources)
    requires FinishPlan(d, j).ok && k < |FinishPlan(d, j).writes|
    requires Publishes(d, j) ==> Ready(d, j)
    ensures var crash := ApplyAll(d, Take(FinishPlan(d, j).writes, k));
            Resumable(crash, j) && Complete(crash, j) == ApplyAll(d, FinishPlan(d, j).writes)
  {
    var crash := ApplyAll(d, Take(FinishPlan(d, j).writes, k));
    FinishResumes(d, j, k);
    FinishKeepsSealed(d, j, k);
    CrashIsReady(d, j, k);
    AllSealedAgain(crash, j, j.sources);
    var sealing := SealAllPlan(crash, j, j.sources).writes;
    ApplyNothing(crash, sealing);
    ApplyAllAppend(crash, sealing, FinishPlan(crash, j).writes);
    forall s | s in j.sources ensures !Storeless(crash, s) {
      assert Sealed(crash, j, s);
    }
  }

  lemma CrashIsReady(d: Disk, j: Journal, k: nat)
    requires FinishPlan(d, j).ok && ValidJournal(j) && AllSealed(d, j, j.sources)
    requires Publishes(d, j) ==> Ready(d, j)
    ensures var crash := ApplyAll(d, Take(FinishPlan(d, j).writes, k)); Publishes(crash, j) ==> Ready(crash, j)
  {
    FinishCrashPoints(d, j, k);
    FinishKeepsSealed(d, j, k);
  }

  lemma {:induction false} RecoverConverges(d: Disk, j: Journal, crashes: seq<nat>)
    requires Resumable(d, j) && ValidJournal(j)
    ensures var r := Recover(d, j, crashes);
            if r.journal.None? then r == Complete(d, j) else Resumable(r, j) && Complete(r, j) == Complete(d, j)
    decreases |crashes|
  {
    if crashes != [] {
      AttemptConverges(d, j, crashes[0]);
      CompleteIsReady(d, j);
      var crash := Attempt(d, j, crashes[0]);
      if crashes[0] < |ResumePlan(d, j).writes| {
        RecoverConverges(crash, j, crashes[1..]);
      } else {
        assert Recover(crash, j, crashes[1..]) == crash;
      }
    }
  }

  // ---------------------------------------------------------------- main results

  /** Repeated crashed runs end where one uninterrupted run ends, and can always be made to. */
  ghost predicate Converges(d: Disk, j: Journal, crashes: seq<nat>) {
    var r := Recover(d, j, crashes);
    if r.journal.None? then r == Complete(d, j) else ResumePlan(r, j).ok && Complete(r, j) == Complete(d, j)
  }

  /** A generation without a store directory whose metadata has been written cannot be resealed. */
  predicate Stuck(d: Disk, s: Source) {
    Storeless(d, s) && s.id in d.metas
  }

  lemma {:induction false} StuckRefuses(d: Disk, j: Journal, sources: seq<Source>, s: Source)
    requires Stuck(d, s) && s in sources && DistinctIds(sources)
    ensures !SealAllPlan(d, j, sources).ok
    decreases |sources|
  {
    if sources[0] != s {
      var first := SealPlan(d, j, sources[0]);
      var i :| 0 <= i < |sources| && sources[i] == s;
      assert sources[0].id != s.id;
      if first.ok {
        StaysStuck(d, j, first.writes, s) by { SealPlanSpares(d, j, sources[0], s); }
        StuckRefuses(ApplyAll(d, first.writes), j, sources[1..], s);
      }
    }
  }

  lemma {:induction false} StaysStuck(d: Disk, j: Journal, writes: seq<Write>, s: Source)
    requires Stuck(d, s) && forall w | w in writes :: Spares(w, s)
    ensures Stuck(ApplyAll(d, writes), s)
    decreases |writes|
  {
    if writes != [] {
      assert writes[0] in writes;
      StaysStuck(Apply(d, writes[0]), j, writes[1..], s);
    }
  }

  lemma {:induction false} StaysStoreless(d: Disk, writes: seq<Write>, s: Source)
    requires Storeless(d, s) && forall w | w in writes :: Spares(w, s)
    ensures Storeless(ApplyAll(d, writes), s)
    decreases |writes|
  {
    if writes != [] {
      assert writes[0] in writes;
      StaysStoreless(Apply(d, writes[0]), writes[1..], s);
    }
  }

  /** The sealing loop leaves a generation without a store directory stuck. */
  lemma {:induction false} SealingStrands(d: Disk, j: Journal, sources: seq<Source>, s: Source)
    requires Storeless(d, s) && s in sources && DistinctIds(sources) && SealAllPlan(d, j, sources).ok
    ensures Stuck(ApplyAll(d, SealAllPlan(d, j, sources).writes), s)
    decreases |sources|
  {
    var t, first := sources[0], SealPlan(d, j, sources[0]).writes;
    var next := ApplyAll(d, first);
    var rest := SealAllPlan(next, j, sources[1..]).writes;
    ApplyAllAppend(d, first, rest);
    if t == s {
      assert first == [MakeRoot(s.id)] + [WriteMetadata(s.id, SealedMetadata(j, s))];
      ApplyAllSnoc(d, [MakeRoot(s.id)], WriteMetadata(s.id, SealedMetadata(j, s)));
      ApplyAllSnoc(d, [], MakeRoot(s.id));
      assert [] + [MakeRoot(s.id)] == [MakeRoot(s.id)];
      forall u | u in sources[1..] ensures u.id != s.id {
        var i :| 0 <= i < |sources[1..]| && sources[1..][i] == u;
        assert sources[i + 1] == u;
      }
      OthersSpare(next, j, sources[1..], s);
      StaysStuck(next, j, rest, s);
    } else {
      var i :| 0 <= i < |sources| && sources[i] == s;
      SealPlanSpares(d, j, t, s);
      StaysStoreless(d, first, s);
      SealingStrands(next, j, sources[1..], s);
    }
  }

  lemma {:induction false} OthersSpare(d: Disk, j: Journal, sources: seq<Source>, s: Source)
    requires Original(s).None? && forall t | t in sources :: t.id != s.id
    ensures forall w | w in SealAllPlan(d, j, sources).writes :: Spares(w, s)
    decreases |sources|
  {
    if sources != [] {
      SealPlanSpares(d, j, sources[0], s);
      var first := SealPlan(d, j, sources[0]);
      if first.ok {
        OthersSpare(ApplyAll(d, first.writes), j, sources[1..], s);
      }
    }
  }

  /** Crash convergence holds exactly for the journals whose generation sources all have a store
      directory: any sequence of crashes, wherever they fall, then leads to the one end. */
  lemma CrashConvergence(d: Disk, j: Journal)
    requires d.journal == Some(j) && ValidJournal(j) && !Publishes(d, j) && ResumePlan(d, j).ok
    ensures NoneStoreless(d, j.sources) <==> forall crashes :: Converges(d, j, crashes)
  {
    if NoneStoreless(d, j.sources) {
      forall crashes ensures Converges(d, j, crashes) {
        RecoverConverges(d, j, crashes);
      }
    } else {
      var s :| s in j.sources && Storeless(d, s);
      var writes := SealAllPlan(d, j, j.sources).writes;
      var middle := ApplyAll(d, writes);
      var finish := FinishPlan(middle, j).writes;
      TakeSplit(d, writes, finish, |writes|);
      SealAllLeavesJournal(d, j, j.sources);
      SealAllKeepsJournal(d, writes);
      FinishCrashPoints(middle, j, 0);
      assert |finish| > 0 && ApplyAll(middle, Take(finish, 0)) == middle;
      SealingStrands(d, j, j.sources, s);
      StuckRefuses(middle, j, j.sources, s);
      var crash := [|writes|];
      assert crash[1..] == [] && Recover(d, j, crash) == Recover(middle, j, []) == middle;
      assert !Converges(d, j, crash);
    }
  }

  /** One generation source, made but without a store, on a disk with nothing else. */
  const STORELESS_JOURNAL := Journal(0, 2, [Source(FromGeneration, 1, None, 0)])
  const STORELESS_DISK := Disk(map[], {1}, map[], map[], None, Some(STORELESS_JOURNAL))

  /** A journal that an uninterrupted run finishes, although some crash keeps every later run from it. */
  lemma StorelessDiverges()
    ensures ValidJournal(STORELESS_JOURNAL) && !Publishes(STORELESS_DISK, STORELESS_JOURNAL)
    ensures ResumePlan(STORELESS_DISK, STORELESS_JOURNAL).ok
    ensures exists crashes :: !Converges(STORELESS_DISK, STORELESS_JOURNAL, crashes)
  {
    var d, j := STORELESS_DISK, STORELESS_JOURNAL;
    var s := j.sources[0];
    var first := SealPlan(d, j, s);
    assert first == Plan([MakeRoot(1), WriteMetadata(1, SealedMetadata(j, s))], true);
    assert j.sources[1..] == [];
    assert SealAllPlan(d, j, j.sources) == Plan(first.writes + [], true);
    var sealed := ApplyAll(d, first.writes);
    assert first.writes[1..] == [first.writes[1]] && first.writes[1..][1..] == [];
    assert sealed == Apply(Apply(d, first.writes[0]), first.writes[1]);
    assert first.writes + [] == first.writes;
    assert FinishPlan(sealed, j).ok;
    assert s in j.sources && Storeless(d, s);
    CrashConvergence(d, j);
  }

  // ---------------------------------------------------------------- creating the journal

  /** A partial generation with what its database header says, if it could be read. */
  datatype PartialGeneration = PartialGeneration(id: Id, header: Option<nat>, listed: Option<nat>, createdAt: Time)

  datatype ArchiveEntry = ArchiveEntry(name: Name, storageVersion: Option<nat>, createdAt: Time)

  /** The current store: in the legacy place, or in the published generation if there is one. */
  datatype CurrentStore =
    | NoStore
    | LegacyStore(format: Option<nat>)
    | PublishedStore(id: Id, format: Option<nat>, createdAt: Option<Time>)

  predicate Fresh(uuids: seq<Id>, partials: seq<PartialGeneration>, current: CurrentStore) {
    && (forall a, b | 0 <= a < b < |uuids| :: uuids[a] != uuids[b])
    && (forall p | p in partials :: p.id !in uuids)
    && (current.PublishedStore? ==> current.id !in uuids)
  }

  /** What is later written as the metadata of a partial generation: its database header, where that could
      be read, and otherwise what it was listed with, decides the storage version. */
  predicate ListsPartial(s: Source, p: PartialGeneration) {
    && s.kind.FromGeneration? && s.id == p.id && s.createdAt == p.createdAt
    && (p.header.Some? ==> s.storageVersion == p.header)
    && (p.header.None? ==> s.storageVersion == p.listed)
  }

  predicate ListsArchive(s: Source, a: ArchiveEntry, uuid: Id) {
    s.kind == FromArchive(a.name) && s.id == uuid && s.storageVersion == a.storageVersion && s.createdAt == a.createdAt
  }

  /** The sources begin with the partial generations and then the legacy archives, in order. */
  predicate Lists(sources: seq<Source>, partials: seq<PartialGeneration>, archives: seq<ArchiveEntry>, uuids: seq<Id>)
    requires |archives| <= |uuids|
  {
    && |partials| + |archives| <= |sources|
    && (forall k | 0 <= k < |partials| :: ListsPartial(sources[k], partials[k]))
    && (forall k | |partials| <= k < |partials| + |archives| ::
          ListsArchive(sources[k], archives[k - |partials|], uuids[k - |partials|]))
  }

  lemma ListedApart(sources: seq<Source>, partials: seq<PartialGeneration>, archives: seq<ArchiveEntry>,
                    current: CurrentStore, uuids: seq<Id>)
    requires |archives| <= |uuids| && Fresh(uuids, partials, current) && |sources| == |partials| + |archives|
    requires forall a, b | 0 <= a < b < |partials| :: partials[a].id != partials[b].id
    requires forall a, b | 0 <= a < b < |archives| :: archives[a].name != archives[b].name
    requires Lists(sources, partials, archives, uuids)
    ensures DistinctIds(sources) && DistinctOriginals(sources)
    ensures forall s | s in sources ::
              if s.kind.FromGeneration? then s.id !in uuids else s.kind.FromArchive? && s.id in uuids[..|archives|]
  {
    forall a | 0 <= a < |sources|
      ensures if a < |partials| then sources[a].kind.FromGeneration? && partials[a] in partials
              else sources[a].kind.FromArchive? && sources[a].id == uuids[..|archives|][a - |partials|]
    {
    }
  }

  /** The source for the current store, unless the sources have its generation already. */
  function CurrentSource(startedAt: Time, sources: seq<Source>, current: CurrentStore, uuid: Id): (others: seq<Source>)
  {
    match current
    case NoStore => []
    case LegacyStore(format) => [Source(FromRuntime, uuid, format, startedAt)]
    case PublishedStore(id, format, createdAt) =>
      if exists s | s in sources :: s.id == id then []
      else [Source(FromGeneration, id, format, if createdAt.Some? then createdAt.value else startedAt)]
  }

  predicate ListsLegacy(s: Source, j: Journal, format: Option<nat>, uuid: Id) {
    s.kind == FromRuntime && s.id == uuid && s.storageVersion == format && s.createdAt == j.startedAt
  }

  predicate ListsPublished(s: Source, j: Journal, id: Id, format: Option<nat>, createdAt: Option<Time>) {
    && s.kind == FromGeneration && s.id == id && s.storageVersion == format
    && (createdAt.Some? ==> s.createdAt == createdAt.value) && (createdAt.None? ==> s.createdAt == j.startedAt)
  }

  /** The current store is a source with its version and time, unless its generation is a partial one; and
      nothing is listed beside it, the partial generations and the archives. */
  predicate ListsCurrent(j: Journal, partials: seq<PartialGeneration>, archives: seq<ArchiveEntry>,
                         current: CurrentStore, uuid: Id) {
    match current
    case NoStore => |j.sources| == |partials| + |archives|
    case LegacyStore(format) =>
      |j.sources| == |partials| + |archives| + 1 && ListsLegacy(j.sources[|j.sources| - 1], j, format, uuid)
    case PublishedStore(id, format, createdAt) =>
      if exists p | p in partials :: p.id == id then |j.sources| == |partials| + |archives|
      else
        |j.sources| == |partials| + |archives| + 1
        && ListsPublished(j.sources[|j.sources| - 1], j, id, format, createdAt)
  }

  /** The two loops of `createTransitionJournal`. */
  method ListSources(partials: seq<PartialGeneration>, archives: seq<ArchiveEntry>, uuids: seq<Id>)
    returns (sources: seq<Source>)
    requires |archives| <= |uuids|
    ensures |sources| == |partials| + |archives| && Lists(sources, partials, archives, uuids)
  {
    sources := [];
    for i := 0 to |partials|
      invariant |sources| == i && Lists(sources, partials[..i], [], uuids)
    {
      var p := partials[i];
      sources := sources + [Source(FromGeneration, p.id, if p.header.Some? then p.header else p.listed, p.createdAt)];
    }
    assert partials[..|partials|] == partials;
    for i := 0 to |archives|
      invariant |sources| == |partials| + i && Lists(sources, partials, archives[..i], uuids)
    {
      var a := archives[i];
      sources := sources + [Source(FromArchive(a.name), uuids[i], a.storageVersion, a.createdAt)];
    }
    assert archives[..|archives|] == archives;
  }

  /** `createTransitionJournal`, drawing its new generation ids from `uuids`: whatever it lists, the
      journal is one that the results on recovery apply to. */
  method CreateTransitionJournal(startedAt: Time, partials: seq<PartialGeneration>, archives: seq<ArchiveEntry>,
                                 current: CurrentStore, uuids: seq<Id>) returns (j: Journal)
    requires |uuids| == |archives| + 2 && Fresh(uuids, partials, current)
    requires forall a, b | 0 <= a < b < |partials| :: partials[a].id != partials[b].id
    requires forall a, b | 0 <= a < b < |archives| :: archives[a].name != archives[b].name
    ensures j.startedAt == startedAt && ValidJournal(j) && DistinctOriginals(j.sources)
    ensures Lists(j.sources, partials, archives, uuids)
    ensures var n := |partials| + |archives|;
            j.sources[n..] == CurrentSource(startedAt, j.sources[..n], current, uuids[|archives|])
    ensures ListsCurrent(j, partials, archives, current, uuids[|archives|])
  {
    var sources := ListSources(partials, archives, uuids);
    var others := CurrentSource(startedAt, sources, current, uuids[|archives|]);
    j := Journal(startedAt, uuids[|archives| + 1], sources + others);
    assert j.sources[..|sources|] == sources && j.sources[|sources|..] == others;
    ListedApart(sources, partials, archives, current, uuids);
    CurrentApart(sources, others, current, uuids, |archives|);
  }

  lemma CurrentApart(sources: seq<Source>, others: seq<Source>, current: CurrentStore, uuids: seq<Id>, n: nat)
    requires |uuids| == n + 2 && Fresh(uuids, [], current) && DistinctIds(sources) && DistinctOriginals(sources)
    requires forall s | s in sources ::
               if s.kind.FromGeneration? then s.id !in uuids else s.kind.FromArchive? && s.id in uuids[..n]
    requires others == [] || (|others| == 1 &&
               if others[0].kind.FromGeneration? then others[0].id !in uuids && forall s | s in sources :: s.id != others[0].id
               else others[0].kind.FromRuntime? && others[0].id == uuids[n])
    ensures DistinctIds(sources + others) && DistinctOriginals(sources + others)
    ensures forall s | s in sources + others :: s.id != uuids[n + 1]
  {
    forall s | s in sources ensures s.id != uuids[n] && s.id != uuids[n + 1] {
      if s.id in uuids[..n] {
        var k :| 0 <= k < n && uuids[k] == s.id;
      }
    }
    forall a | 0 <= a < |sources| ensures sources[a] in sources {
    }
  }

  // ---------------------------------------------------------------- what a finished transition leaves

  /** The generation describes the source it came from, and is archived as of this transition. */
  predicate Archived(d: Disk, j: Journal, s: Source) {
    && s.id in d.metas && d.metas[s.id].Metadata?
    && d.metas[s.id].id == s.id
    && d.metas[s.id].storageVersion == s.storageVersion
    && d.metas[s.id].createdAt == s.createdAt
    && d.metas[s.id].archivedAt == Some(j.startedAt)
  }

  /** The next generation is of storage version 19, as old as the transition, and not archived. */
  predicate NextDescribed(d: Disk, j: Journal) {
    && j.next in d.metas && d.metas[j.next].Metadata?
    && d.metas[j.next].id == j.next
    && d.metas[j.next].storageVersion == Some(19)
    && d.metas[j.next].createdAt == j.startedAt
    && d.metas[j.next].archivedAt == None
    && Generation(j.next) in d.stores && d.stores[Generation(j.next)].format == Some(19)
  }

  /** The manifest names the next generation, and is as old as the valid one before it or as the transition. */
  predicate ManifestFollows(before: Option<Manifest>, after: Option<Manifest>, j: Journal) {
    && after.Some? && after.value.Manifest?
    && after.value.version == 2 && after.value.active == Some(j.next)
    && (before.Some? && before.value.Manifest? ==> after.value.createdAt == before.value.createdAt)
    && (!(before.Some? && before.value.Manifest?) ==> after.value.createdAt == j.startedAt)
  }

  predicate HasIndex(s: Source, store: Store) {
    s.storageVersion == Some(9) && store.complete && store.runs.Some?
  }

  /** The run index of a complete version 9 store is written, and no other. */
  predicate IndexFollows(before: Disk, after: Disk, s: Source, store: Store) {
    && (HasIndex(s, store) ==> s.id in after.indexes && after.indexes[s.id] == store.runs.value)
    && (!HasIndex(s, store) ==> (s.id in after.indexes <==> s.id in before.indexes))
    && (!HasIndex(s, store) && s.id in before.indexes ==> after.indexes[s.id] == before.indexes[s.id])
  }

  /** The write leaves what is recorded of the generation as it is. */
  predicate SparesRecords(w: Write, id: Id) {
    match w
    case WriteMetadata(i, _) => i != id
    case WriteIndex(i, _) => i != id
    case _ => true
  }

  predicate SameRecords(d: Disk, e: Disk, id: Id) {
    && (id in d.metas <==> id in e.metas) && (id in d.metas ==> e.metas[id] == d.metas[id])
    && (id in d.indexes <==> id in e.indexes) && (id in d.indexes ==> e.indexes[id] == d.indexes[id])
  }

  lemma {:induction false} SparedRecords(d: Disk, writes: seq<Write>, id: Id)
    requires forall w | w in writes :: SparesRecords(w, id)
    ensures SameRecords(d, ApplyAll(d, writes), id)
    decreases |writes|
  {
    if writes != [] {
      assert writes[0] in writes;
      SparedRecords(Apply(d, writes[0]), writes[1..], id);
    }
  }

  lemma {:induction false} SealingSparesRecords(d: Disk, j: Journal, sources: seq<Source>, id: Id)
    requires forall s | s in sources :: s.id != id
    ensures forall w | w in SealAllPlan(d, j, sources).writes :: SparesRecords(w, id)
    decreases |sources|
  {
    if sources != [] {
      assert sources[0] in sources;
      var first := SealPlan(d, j, sources[0]);
      if first.ok {
        SealingSparesRecords(ApplyAll(d, first.writes), j, sources[1..], id);
      }
    }
  }

  /** Sealing one source, with or without a store directory. */
  lemma SealRecords(d: Disk, j: Journal, s: Source)
    requires SealPlan(d, j, s).ok
    ensures var e := ApplyAll(d, SealPlan(d, j, s).writes);
            Archived(e, j, s) && (!Storeless(d, s) ==> IndexFollows(d, e, s, SourceStore(d, s)))
  {
    if Storeless(d, s) {
      var root, meta := MakeRoot(s.id), WriteMetadata(s.id, SealedMetadata(j, s));
      assert SealPlan(d, j, s).writes == [root] + [meta] && [] + [root] == [root];
      ApplyAllSnoc(d, [], root);
      ApplyAllSnoc(d, [root], meta);
    } else {
      SealWrites(d, j, s);
    }
  }

  lemma {:induction false} SealAllRecords(d: Disk, j: Journal, sources: seq<Source>, s: Source)
    requires SealAllPlan(d, j, sources).ok && Apart(s, sources) && s in sources && DistinctIds(sources)
    ensures var e := ApplyAll(d, SealAllPlan(d, j, sources).writes);
            Archived(e, j, s) && (!Storeless(d, s) && Placed(d, s) ==> IndexFollows(d, e, s, SourceStore(d, s)))
    decreases |sources|
  {
    var t, others, first := sources[0], sources[1..], SealPlan(d, j, sources[0]).writes;
    var next := ApplyAll(d, first);
    var rest := SealAllPlan(next, j, others).writes;
    ApplyAllAppend(d, first, rest);
    if t == s {
      SealRecords(d, j, s);
      forall u | u in others ensures u.id != s.id {
        var i :| 0 <= i < |others| && others[i] == u;
        assert sources[i + 1] == u;
      }
      SealingSparesRecords(next, j, others, s.id);
      SparedRecords(next, rest, s.id);
    } else {
      assert t in sources;
      SealPlanSpares(d, j, t, s);
      SparedRecords(d, first, s.id);
      SparedSamePlace(d, first, s);
      if !Storeless(d, s) && s.kind.FromGeneration? {
        GenerationsStay(d, first, s.id);
      }
      SealAllRecords(next, j, others, s);
    }
  }

  /** What an uninterrupted run leaves, in the fields of its files: every source archived with its own
      version and time, the next generation described and published, indexes as the stores ask for them. */
  lemma CompleteRecords(d: Disk, j: Journal)
    requires d.journal == Some(j) && ValidJournal(j) && DistinctOriginals(j.sources) && ResumePlan(d, j).ok
    ensures var e := Complete(d, j);
            && (forall s | s in j.sources :: Archived(e, j, s))
            && (forall s | s in j.sources && Placed(d, s) :: IndexFollows(d, e, s, SourceStore(d, s)))
            && NextDescribed(e, j) && e.stores[Generation(j.next)].complete
            && ManifestFollows(d.manifest, e.manifest, j) && e.journal.None?
  {
    var sealing := SealAllPlan(d, j, j.sources).writes;
    var middle := ApplyAll(d, sealing);
    var finish := FinishPlan(middle, j).writes;
    ApplyAllAppend(d, sealing, finish);
    SealAllLeavesJournal(d, j, j.sources);
    SealAllKeepsJournal(d, sealing);
    FinishPublishes(middle, j);
    forall s | s in j.sources
      ensures Archived(Complete(d, j), j, s)
      ensures Placed(d, s) ==> IndexFollows(d, Complete(d, j), s, SourceStore(d, s))
    {
      SourcesApart(j, s);
      SealAllRecords(d, j, j.sources, s);
      SparedRecords(middle, finish, s.id);
    }
  }

  /** A generation that is neither a source nor the next one keeps its records and its store. */
  lemma OthersKept(d: Disk, j: Journal, id: Id)
    requires ResumePlan(d, j).ok && id != j.next && forall s | s in j.sources :: s.id != id
    ensures var e := Complete(d, j);
            && SameRecords(d, e, id)
            && (Generation(id) in d.stores <==> Generation(id) in e.stores)
            && (Generation(id) in d.stores ==> e.stores[Generation(id)] == d.stores[Generation(id)])
  {
    var sealing := SealAllPlan(d, j, j.sources).writes;
    var middle := ApplyAll(d, sealing);
    var other := Source(FromGeneration, id, None, 0);
    ApplyAllAppend(d, sealing, FinishPlan(middle, j).writes);
    SealingSparesRecords(d, j, j.sources, id);
    SparedRecords(d, sealing, id);
    OthersSpare(d, j, j.sources, other);
    SparedSamePlace(d, sealing, other);
    FinishSpares(middle, j, other);
    SparedRecords(middle, FinishPlan(middle, j).writes, id);
    SparedSamePlace(middle, FinishPlan(middle, j).writes, other);
  }

  lemma {:induction false} ManifestWritten(d: Disk, writes: seq<Write>, m: Manifest)
    requires forall w | w in writes :: w.WriteManifest? ==> w.manifest == m
    ensures ApplyAll(d, writes).manifest == d.manifest || ApplyAll(d, writes).manifest == Some(m)
    decreases |writes|
  {
    if writes != [] {
      assert writes[0] in writes;
      ManifestWritten(Apply(d, writes[0]), writes[1..], m);
    }
  }

  lemma AttemptManifest(d: Disk, j: Journal, k: nat)
    requires ResumePlan(d, j).ok
    ensures Attempt(d, j, k).manifest == d.manifest || Attempt(d, j, k).manifest == Some(PublishedManifest(d, j))
  {
    var sealing := SealAllPlan(d, j, j.sources).writes;
    SealAllLeavesJournal(d, j, j.sources);
    SealAllKeepsJournal(d, sealing);
    TakeIn(ResumePlan(d, j).writes, k);
    forall w | w in ResumePlan(d, j).writes ensures w.WriteManifest? ==> w.manifest == PublishedManifest(d, j) {
      assert w in sealing || w in FinishPlan(ApplyAll(d, sealing), j).writes;
    }
    ManifestWritten(d, Take(ResumePlan(d, j).writes, k), PublishedManifest(d, j));
  }

  lemma {:induction false} RecoverManifest(d: Disk, j: Journal, crashes: seq<nat>)
    requires Resumable(d, j) && ValidJournal(j)
    ensures var r := Recover(d, j, crashes); r.manifest == d.manifest || r.manifest == Some(PublishedManifest(d, j))
    decreases |crashes|
  {
    if crashes != [] {
      var crash := Attempt(d, j, crashes[0]);
      AttemptManifest(d, j, crashes[0]);
      AttemptConverges(d, j, crashes[0]);
      if crashes[0] < |ResumePlan(d, j).writes| {
        RecoverManifest(crash, j, crashes[1..]);
      } else {
        CompleteIsReady(d, j);
        assert Recover(crash, j, crashes[1..]) == crash;
      }
    }
  }

  // ---------------------------------------------------------------- when a transition succeeds

  /** The metadata in the source's place is its own, and archived by no other transition. */
  predicate OwnRecord(d: Disk, j: Journal, s: Source) {
    s.id in d.metas ==>
      && d.metas[s.id].Metadata? && d.metas[s.id].id == s.id
      && d.metas[s.id].storageVersion == s.storageVersion && d.metas[s.id].createdAt == s.createdAt
      && (d.metas[s.id].archivedAt == None || d.metas[s.id].archivedAt == Some(j.startedAt))
  }

  /** The source can be sealed, judged by the disk the transition starts from. */
  predicate Sealable(d: Disk, j: Journal, s: Source) {
    match s.kind
    case FromGeneration =>
      s.id in d.roots
      && (if Generation(s.id) in d.stores then OwnRecord(d, j, s) else s.storageVersion == None && s.id !in d.metas)
    case FromRuntime => (LegacyRuntime in d.stores) != (Generation(s.id) in d.stores) && OwnRecord(d, j, s)
    case FromArchive(name) => (LegacyArchive(name) in d.stores) != (Generation(s.id) in d.stores) && OwnRecord(d, j, s)
  }

  /** The next generation's place is free, or holds what this transition has put there. */
  predicate NextUsable(d: Disk, j: Journal) {
    && (j.next in d.metas ==> d.metas[j.next] == Metadata(j.next, Some(19), j.startedAt, None))
    && (Generation(j.next) in d.stores ==>
          var store := d.stores[Generation(j.next)];
          store.format == None || (store.format == Some(19) && store.complete))
  }

  lemma SealsIfSealable(d: Disk, j: Journal, s: Source)
    ensures SealPlan(d, j, s).ok <==> Sealable(d, j, s)
  {
  }

  /** Sealing one source decides nothing about another. */
  lemma SealingApart(d: Disk, j: Journal, t: Source, s: Source)
    requires t.id != s.id && (Original(s).Some? ==> Original(s) != Original(t)) && SealPlan(d, j, t).ok
    ensures Sealable(ApplyAll(d, SealPlan(d, j, t).writes), j, s) <==> Sealable(d, j, s)
  {
    if Storeless(d, t) {
      var root, meta := MakeRoot(t.id), WriteMetadata(t.id, SealedMetadata(j, t));
      assert SealPlan(d, j, t).writes == [root] + [meta] && [] + [root] == [root];
      ApplyAllSnoc(d, [], root);
      ApplyAllSnoc(d, [root], meta);
    } else {
      SealWrites(d, j, t);
    }
  }

  lemma {:induction false} SealsAllIfSealable(d: Disk, j: Journal, sources: seq<Source>)
    requires DistinctIds(sources) && DistinctOriginals(sources)
    ensures SealAllPlan(d, j, sources).ok <==> forall s | s in sources :: Sealable(d, j, s)
    decreases |sources|
  {
    if sources != [] {
      var t, others, first := sources[0], sources[1..], SealPlan(d, j, sources[0]);
      SealsIfSealable(d, j, t);
      if first.ok {
        var next := ApplyAll(d, first.writes);
        SealsAllIfSealable(next, j, others);
        forall s | s in others ensures Sealable(next, j, s) <==> Sealable(d, j, s) {
          var i :| 0 <= i < |others| && others[i] == s;
          assert sources[i + 1] == s && Original(t) == Original(s) ==> Original(t).None?;
          SealingApart(d, j, t, s);
        }
      }
      assert forall s | s in sources :: s == t || s in others;
      assert forall s | s in others :: s in sources;
    }
  }

  /** A transition succeeds if and only if each of its sources can be sealed and the next generation's
      place is usable, all judged by the disk it starts from. */
  lemma ResumeSucceeds(d: Disk, j: Journal)
    requires ValidJournal(j) && DistinctOriginals(j.sources)
    ensures ResumePlan(d, j).ok <==> (forall s | s in j.sources :: Sealable(d, j, s)) && NextUsable(d, j)
  {
    SealsAllIfSealable(d, j, j.sources);
    var sealing := SealAllPlan(d, j, j.sources);
    if sealing.ok {
      var middle := ApplyAll(d, sealing.writes);
      var next := Source(FromGeneration, j.next, None, 0);
      SealingSparesRecords(d, j, j.sources, j.next);
      SparedRecords(d, sealing.writes, j.next);
      OthersSpare(d, j, j.sources, next);
      SparedSamePlace(d, sealing.writes, next);
      FinishesIfUsable(middle, j);
    }
  }

  lemma FinishesIfUsable(d: Disk, j: Journal)
    ensures FinishPlan(d, j).ok <==> NextUsable(d, j)
  {
  }

  // ---------------------------------------------------------------- every crash state is safe

  predicate Placed(d: Disk, s: Source) {
    if s.kind.FromGeneration? then Generation(s.id) in d.stores
    else (Original(s).value in d.stores) != (Generation(s.id) in d.stores)
  }

  predicate Apart(s: Source, sources: seq<Source>) {
    forall t | t in sources :: t == s || (t.id != s.id && (Original(s).Some? ==> Original(s) != Original(t)))
  }

  /** The source is placed in both disks or in neither, with the same store. */
  predicate SamePlace(d: Disk, e: Disk, s: Source) {
    && Placed(d, s) == Placed(e, s)
    && (Placed(d, s) ==> SourceStore(d, s) == SourceStore(e, s))
  }

  lemma {:induction false} SparedSamePlace(d: Disk, writes: seq<Write>, s: Source)
    requires forall w | w in writes :: Spares(w, s)
    ensures SamePlace(d, ApplyAll(d, writes), s)
    decreases |writes|
  {
    if writes != [] {
      assert writes[0] in writes;
      SparedSamePlace(Apply(d, writes[0]), writes[1..], s);
      assert SamePlace(d, Apply(d, writes[0]), s);
    }
  }

  lemma SealOneSamePlace(d: Disk, j: Journal, t: Source, s: Source, k: nat)
    requires t == s || (t.id != s.id && (Original(s).Some? ==> Original(s) != Original(t)))
    requires SealPlan(d, j, t).ok && !Storeless(d, s)
    ensures var crash := ApplyAll(d, Take(SealPlan(d, j, t).writes, k));
            SamePlace(d, crash, s) && !Storeless(crash, s) && (t == s ==> Placed(d, s))
  {
    var first := SealPlan(d, j, t).writes;
    TakeIn(first, k);
    if t == s {
      SealCrashPoints(d, j, s, k);
      SealResumes(d, j, s, k);
    } else {
      SealPlanSpares(d, j, t, s);
      SparedSamePlace(d, Take(first, k), s);
      if s.kind.FromGeneration? {
        GenerationsStay(d, Take(first, k), s.id);
      }
    }
  }

  lemma {:induction false} SealingSamePlace(d: Disk, j: Journal, sources: seq<Source>, s: Source, k: nat)
    requires Apart(s, sources) && SealAllPlan(d, j, sources).ok && !Storeless(d, s)
    ensures SamePlace(d, ApplyAll(d, Take(SealAllPlan(d, j, sources).writes, k)), s)
    ensures s in sources ==> Placed(d, s)
    decreases |sources|
  {
    if sources != [] {
      var t, first := sources[0], SealPlan(d, j, sources[0]).writes;
      var next := ApplyAll(d, first);
      assert t in sources && Take(first, |first|) == first;
      TakeSplit(d, first, SealAllPlan(next, j, sources[1..]).writes, k);
      SealOneSamePlace(d, j, t, s, k);
      SealOneSamePlace(d, j, t, s, |first|);
      SealingSamePlace(next, j, sources[1..], s, if k >= |first| then k - |first| else 0);
    }
  }

  lemma AttemptSamePlace(d: Disk, j: Journal, k: nat, s: Source)
    requires ResumePlan(d, j).ok && Apart(s, j.sources) && !Storeless(d, s) && s.id != j.next && s in j.sources
    ensures SamePlace(d, Attempt(d, j, k), s) && Placed(d, s)
  {
    var sealing := SealAllPlan(d, j, j.sources).writes;
    var middle := ApplyAll(d, sealing);
    var finish := FinishPlan(middle, j).writes;
    TakeSplit(d, sealing, finish, k);
    SealingSamePlace(d, j, j.sources, s, k);
    SealingSamePlace(d, j, j.sources, s, |sealing|);
    if k >= |sealing| {
      FinishSpares(middle, j, s);
      TakeIn(finish, k - |sealing|);
      SparedSamePlace(middle, Take(finish, k - |sealing|), s);
    }
  }

  lemma {:induction false} RecoverSamePlace(d: Disk, j: Journal, crashes: seq<nat>, s: Source)
    requires Resumable(d, j) && ValidJournal(j) && s in j.sources && Apart(s, j.sources)
    ensures SamePlace(d, Recover(d, j, crashes), s) && Placed(d, s)
    decreases |crashes|
  {
    AttemptSamePlace(d, j, 0, s);
    if crashes != [] {
      var crash := Attempt(d, j, crashes[0]);
      AttemptSamePlace(d, j, crashes[0], s);
      AttemptConverges(d, j, crashes[0]);
      if crashes[0] < |ResumePlan(d, j).writes| {
        RecoverSamePlace(crash, j, crashes[1..], s);
      } else {
        CompleteIsReady(d, j);
        assert Recover(crash, j, crashes[1..]) == crash;
      }
    }
  }

  /** A complete version 9 store in its generation has its run index written. */
  predicate ArchivedIndex(d: Disk, s: Source) {
    Generation(s.id) in d.stores && HasIndex(s, d.stores[Generation(s.id)]) ==>
      s.id in d.indexes && d.indexes[s.id] == d.stores[Generation(s.id)].runs.value
  }

  lemma SealedIndex(d: Disk, j: Journal, s: Source)
    requires Sealed(d, j, s)
    ensures ArchivedIndex(d, s)
  {
    var store := d.stores[Generation(s.id)];
    if HasIndex(s, store) {
      assert WriteIndex(s.id, store.runs.value) in RunIndexWrites(s, store);
    }
  }

  /** In every crash state: each source's store is in exactly one of its two places, unchanged; the
      manifest names the next generation only once every source is archived with its version and time and
      the new generation is described and has the current format; and the journal is gone only after that
      publication. */
  lemma CrashStatesSafe(d: Disk, j: Journal, crashes: seq<nat>)
    requires d.journal == Some(j) && ValidJournal(j) && DistinctOriginals(j.sources) && !Publishes(d, j)
    requires ResumePlan(d, j).ok && NoneStoreless(d, j.sources)
    ensures var r := Recover(d, j, crashes);
            && (forall s | s in j.sources :: Placed(d, s) && Placed(r, s) && SourceStore(r, s) == SourceStore(d, s))
            && (Publishes(r, j) ==>
                  && NextDescribed(r, j) && ManifestFollows(d.manifest, r.manifest, j)
                  && forall s | s in j.sources :: Archived(r, j, s) && ArchivedIndex(r, s))
            && (r.journal == Some(j) || (r.journal.None? && Publishes(r, j)))
  {
    RecoverConverges(d, j, crashes);
    CompleteIsReady(d, j);
    RecoverManifest(d, j, crashes);
    var r := Recover(d, j, crashes);
    forall s | s in j.sources && Publishes(r, j) ensures Archived(r, j, s) && ArchivedIndex(r, s) {
      assert Sealed(r, j, s);
      SealedIndex(r, j, s);
    }
    forall s | s in j.sources
      ensures Placed(d, s) && SamePlace(d, Recover(d, j, crashes), s)
    {
      SourcesApart(j, s);
      RecoverSamePlace(d, j, crashes, s);
    }
  }

  /** Sources of a journal are of different generations and come from different places. */
  lemma SourcesApart(j: Journal, s: Source)
    requires ValidJournal(j) && DistinctOriginals(j.sources) && s in j.sources
    ensures forall t | t in j.sources :: t == s || (t.id != s.id && (Original(s).Some? ==> Original(s) != Original(t)))
  {
    var i :| 0 <= i < |j.sources| && j.sources[i] == s;
    forall t | t in j.sources
      ensures t == s || (t.id != s.id && (Original(s).Some? ==> Original(s) != Original(t)))
    {
      var k :| 0 <= k < |j.sources| && j.sources[k] == t;
    }
  }
}
