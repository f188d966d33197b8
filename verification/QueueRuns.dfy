/** What every run of the worker's queue keeps. */
module QueueRuns {
  import opened Wrappers
  import opened Totals
  import opened Trees
  import opened Retained
  import opened Queue

  // A change to one job's storage.

  predicate SameAt<V(==)>(m: map<string, V>, m': map<string, V>, job: string) {
    (job in m <==> job in m') && (job in m ==> m[job] == m'[job])
  }

  predicate SameFor(s: Store, s': Store, job: string) {
    SameAt(s.running, s'.running, job) && SameAt(s.results, s'.results, job)
    && SameAt(s.temps, s'.temps, job) && SameAt(s.jobs, s'.jobs, job)
  }

  /** `s'` differs from `s` in the storage of `job` only. */
  ghost predicate OnlyJob(s: Store, s': Store, job: string) {
    s'.reservations == s.reservations + {job} && forall other :: other != job ==> SameFor(s, s', other)
  }

  lemma OneCharge(f: Tree -> nat, full: nat, s: Store, s': Store, job: string)
    requires OnlyJob(s, s', job) && (job in s.reservations || Charge(f, full, s, job) == 0)
    ensures Total(Charges(f, full, s')) == Total(Charges(f, full, s)) - Charge(f, full, s, job) + Charge(f, full, s', job)
    ensures Charge(f, full, s, job) <= Total(Charges(f, full, s))
  {
    var before, after := Charges(f, full, s), Charges(f, full, s');
    forall other | other in before && other != job
      ensures after[other] == before[other]
    {
      assert SameFor(s, s', other);
    }
    var v := Charge(f, full, s', job);
    assert after == before[job := v];
    if job in s.reservations {
      TotalUpdate(before, job, v);
    } else {
      TotalAdd(before, job, v);
    }
  }

  lemma SameUsage(cfg: Config, s: Store, s': Store, job: string)
    requires SameFor(s, s', job)
    ensures WithinFull(cfg, s, job) <==> WithinFull(cfg, s', job)
    ensures JobSafe(cfg, s, job) <==> JobSafe(cfg, s', job)
  {
  }

  lemma AcceptedIsSafe(cfg: Config, s: Store, job: string)
    requires Accepts(cfg, s)
    ensures JobSafe(cfg, s, job)
  {
    if job !in Occupied(s) {
      assert Usage(Bytes, s, job) == 0 && Usage(Entries, s, job) == 0;
    }
  }

  lemma AllSafe(cfg: Config, s: Store)
    requires forall job :: job in Occupied(s) ==> JobSafe(cfg, s, job)
    ensures Safe(cfg, s) && AllWithinFull(cfg, s)
  {
    forall job | job in s.running || job in s.results || job in s.temps || job in s.jobs
      ensures JobSafe(cfg, s, job)
    {
      assert job in Occupied(s);
    }
    assert TreesAllowed(s.results, false) by {
      forall job | job in s.results
        ensures s.results[job].Folder? && Allowed(s.results[job], 0, false)
      {
        assert JobSafe(cfg, s, job);
      }
    }
    assert TreesAllowed(s.temps, false) by {
      forall job | job in s.temps
        ensures s.temps[job].Folder? && Allowed(s.temps[job], 0, false)
      {
        assert JobSafe(cfg, s, job);
      }
    }
    assert TreesAllowed(s.jobs, true) by {
      forall job | job in s.jobs
        ensures s.jobs[job].Folder? && Allowed(s.jobs[job], 0, true)
      {
        assert JobSafe(cfg, s, job);
      }
    }
  }

  lemma OthersStay(cfg: Config, s: Store, s': Store, job: string, other: string)
    requires Accepts(cfg, s) && OnlyJob(s, s', job) && other in Occupied(s') && other != job
    ensures other in s'.reservations && JobSafe(cfg, s', other)
  {
    assert SameFor(s, s', other);
    AcceptedIsSafe(cfg, s, other);
    SameUsage(cfg, s, s', other);
    assert other in Occupied(s);
  }

  lemma SafeAfter(cfg: Config, s: Store, s': Store, job: string)
    requires Accepts(cfg, s) && OnlyJob(s, s', job) && JobSafe(cfg, s', job)
    ensures Occupied(s') <= s'.reservations && Safe(cfg, s') && AllWithinFull(cfg, s')
  {
    forall other | other in Occupied(s')
      ensures other in s'.reservations && JobSafe(cfg, s', other)
    {
      if other != job {
        OthersStay(cfg, s, s', job, other);
      }
    }
    AllSafe(cfg, s');
  }

  /** A safe change to one job is accepted if the counts and the totals are. */
  lemma OneJobAccepted(cfg: Config, s: Store, s': Store, job: string)
    requires Accepts(cfg, s) && OnlyJob(s, s', job) && JobSafe(cfg, s', job)
    requires |s'.reservations| <= 4096 && |Occupied(s')| <= cfg.maxResults
    requires ChargedBytes(cfg, s) - Charge(Bytes, Full(cfg).bytes, s, job) + Charge(Bytes, Full(cfg).bytes, s', job) <= cfg.maxBytes
    requires ChargedEntries(cfg, s) - Charge(Entries, Full(cfg).entries, s, job) + Charge(Entries, Full(cfg).entries, s', job) <= cfg.maxEntries
    ensures Accepts(cfg, s')
  {
    SafeAfter(cfg, s, s', job);
    ChargesAfter(cfg, s, s', job);
    hide Safe, AllWithinFull, Occupied, OnlyJob, Charge, Full;
  }

  lemma ChargesAfter(cfg: Config, s: Store, s': Store, job: string)
    requires Accepts(cfg, s) && OnlyJob(s, s', job)
    ensures ChargedBytes(cfg, s') == ChargedBytes(cfg, s) - Charge(Bytes, Full(cfg).bytes, s, job) + Charge(Bytes, Full(cfg).bytes, s', job)
    ensures ChargedEntries(cfg, s')
         == ChargedEntries(cfg, s) - Charge(Entries, Full(cfg).entries, s, job) + Charge(Entries, Full(cfg).entries, s', job)
  {
    if job !in s.reservations {
      assert job !in Occupied(s);
    }
    OneCharge(Bytes, Full(cfg).bytes, s, s', job);
    OneCharge(Entries, Full(cfg).entries, s, s', job);
  }

  // The queue.

  /** Requests and results that belong together agree, and no id is both waiting
      and running. */
  predicate Consistent(cfg: Config, q: State) {
    && (forall job :: job in q.pending ==> job !in q.running && q.pending[job].size <= cfg.maxRequestBytes)
    && (forall job :: job in q.pending && job in q.results ==> q.results[job].action == q.pending[job].action)
    && (forall job :: job in q.running && job in q.results ==> q.results[job].action == q.running[job].action)
  }

  ghost predicate Orderly(cfg: Config, q: State) {
    Accepts(cfg, StoreOf(q)) && Consistent(cfg, q)
  }

  /** Occupied ids after a change to one of them. */
  lemma OccupiedAfter(cfg: Config, s: Store, s': Store, job: string)
    requires OnlyJob(s, s', job)
    ensures Occupied(s') <= Occupied(s) + {job}
    ensures |Occupied(s')| <= |Occupied(s)| + 1 && (job in Occupied(s) || job !in Occupied(s') ==> |Occupied(s')| <= |Occupied(s)|)
  {
    forall other | other in Occupied(s') && other != job
      ensures other in Occupied(s)
    {
      assert SameFor(s, s', other);
    }
    SubsetSize(Occupied(s'), Occupied(s) + {job});
    if job in Occupied(s) || job !in Occupied(s') {
      SubsetSize(Occupied(s'), Occupied(s));
    }
  }

  /** A job that occupies storage for the first time, or starts to run, after its
      worst case was found to fit. */
  lemma ReservedChange(cfg: Config, s: Store, s': Store, job: string)
    requires Accepts(cfg, s) && OnlyJob(s, s', job) && JobSafe(cfg, s', job)
    requires |Occupied(s)| < cfg.maxResults && |s'.reservations| <= 4096
    requires ChargedBytes(cfg, s) + Full(cfg).bytes <= cfg.maxBytes && ChargedEntries(cfg, s) + Full(cfg).entries <= cfg.maxEntries
    ensures Accepts(cfg, s')
  {
    OccupiedAfter(cfg, s, s', job);
    OneJobAccepted(cfg, s, s', job);
  }

  /** A change that charges a job no more than before. */
  lemma SmallerChange(cfg: Config, s: Store, s': Store, job: string)
    requires Accepts(cfg, s) && OnlyJob(s, s', job) && JobSafe(cfg, s', job)
    requires |s'.reservations| <= 4096 && (job in Occupied(s) || job !in Occupied(s'))
    requires Charge(Bytes, Full(cfg).bytes, s', job) <= Charge(Bytes, Full(cfg).bytes, s, job)
    requires Charge(Entries, Full(cfg).entries, s', job) <= Charge(Entries, Full(cfg).entries, s, job)
    ensures Accepts(cfg, s')
  {
    OccupiedAfter(cfg, s, s', job);
    OneJobAccepted(cfg, s, s', job);
  }

  // One step, as the allocator sees it.

  /** What one job holds. */
  datatype Holding = Holding(claim: Option<nat>, result: Option<Tree>, temp: Option<Tree>, snapshot: Option<Tree>)

  function Get<V>(m: map<string, V>, job: string): Option<V> {
    if job in m then Some(m[job]) else None
  }

  function Set<V>(m: map<string, V>, job: string, v: Option<V>): map<string, V> {
    if v.Some? then m[job := v.value] else m - {job}
  }

  function Held(s: Store, job: string): Holding {
    Holding(Get(s.running, job), Get(s.results, job), Get(s.temps, job), Get(s.jobs, job))
  }

  function With(s: Store, job: string, h: Holding): Store {
    Store(s.reservations + {job}, Set(s.running, job, h.claim), Set(s.results, job, h.result), Set(s.temps, job, h.temp),
          Set(s.jobs, job, h.snapshot))
  }

  lemma SetIsLocal<V>(m: map<string, V>, job: string, v: Option<V>, other: string)
    requires other != job
    ensures SameAt(m, Set(m, job, v), other)
  {
  }

  lemma WithIsLocal(s: Store, job: string, h: Holding)
    ensures OnlyJob(s, With(s, job, h), job) && Held(With(s, job, h), job) == h
  {
    var s' := With(s, job, h);
    forall other | other != job
      ensures SameFor(s, s', other)
    {
      SetIsLocal(s.running, job, h.claim, other);
      SetIsLocal(s.results, job, h.result, other);
      SetIsLocal(s.temps, job, h.temp, other);
      SetIsLocal(s.jobs, job, h.snapshot, other);
    }
  }

  function Measured(f: Tree -> nat, tree: Option<Tree>): nat {
    if tree.Some? then f(tree.value) else 0
  }

  ghost function Used(f: Tree -> nat, h: Holding): nat {
    Measured(f, h.result) + Measured(f, h.temp) + Measured(f, h.snapshot)
  }

  ghost predicate TreeSafe(tree: Option<Tree>, snapshot: bool) {
    tree.Some? ==> tree.value.Folder? && Allowed(tree.value, 0, snapshot)
  }

  ghost predicate HoldingSafe(cfg: Config, h: Holding) {
    && (h.claim.Some? ==> h.claim.value <= cfg.maxRequestBytes)
    && TreeSafe(h.result, false) && TreeSafe(h.temp, false) && TreeSafe(h.snapshot, true)
    && Used(Bytes, h) <= Full(cfg).bytes && Used(Entries, h) <= Full(cfg).entries
  }

  lemma HeldUsage(f: Tree -> nat, full: nat, s: Store, job: string)
    ensures Usage(f, s, job) == Used(f, Held(s, job))
    ensures Charge(f, full, s, job) == if Held(s, job).claim.Some? then full else Used(f, Held(s, job))
  {
  }

  lemma HeldSafe(cfg: Config, s: Store, job: string)
    ensures JobSafe(cfg, s, job) <==> HoldingSafe(cfg, Held(s, job))
    ensures job in Occupied(s) <==> Held(s, job) != Holding(None, None, None, None)
  {
    HeldUsage(Bytes, 0, s, job);
    HeldUsage(Entries, 0, s, job);
  }

  lemma WithRoom(cfg: Config, s: Store, job: string, h: Holding)
    requires Accepts(cfg, s) && Room(cfg, s, job) && HoldingSafe(cfg, h)
    ensures Accepts(cfg, With(s, job, h))
  {
    WithIsLocal(s, job, h);
    HeldSafe(cfg, With(s, job, h), job);
    assert job in s.reservations ==> s.reservations + {job} == s.reservations;
    ReservedChange(cfg, s, With(s, job, h), job);
  }

  /** The change of a job's holding to `h` charges it no more. */
  ghost predicate NoMore(cfg: Config, s: Store, job: string, h: Holding) {
    && (h != Holding(None, None, None, None) ==> job in Occupied(s))
    && Charge(Bytes, Full(cfg).bytes, With(s, job, h), job) <= Charge(Bytes, Full(cfg).bytes, s, job)
    && Charge(Entries, Full(cfg).entries, With(s, job, h), job) <= Charge(Entries, Full(cfg).entries, s, job)
  }

  lemma WithNoMore(cfg: Config, s: Store, job: string, h: Holding)
    requires Accepts(cfg, s) && (job in s.reservations || |s.reservations| < 4096) && HoldingSafe(cfg, h) && NoMore(cfg, s, job, h)
    ensures Accepts(cfg, With(s, job, h))
  {
    var s' := With(s, job, h);
    WithIsLocal(s, job, h);
    HeldSafe(cfg, s', job);
    assert job in s.reservations ==> s.reservations + {job} == s.reservations;
    SmallerChange(cfg, s, s', job);
  }

  /** A running job is charged its worst case, whatever it holds. */
  lemma RunningNoMore(cfg: Config, s: Store, job: string, h: Holding)
    requires job in s.running && HoldingSafe(cfg, h)
    ensures NoMore(cfg, s, job, h)
  {
    WithIsLocal(s, job, h);
    HeldUsage(Bytes, Full(cfg).bytes, With(s, job, h), job);
    HeldUsage(Entries, Full(cfg).entries, With(s, job, h), job);
  }

  lemma SameNoMore(cfg: Config, s: Store, job: string, h: Holding)
    requires h.claim == Held(s, job).claim && (h != Holding(None, None, None, None) ==> job in Occupied(s))
    requires Used(Bytes, h) <= Used(Bytes, Held(s, job)) && Used(Entries, h) <= Used(Entries, Held(s, job))
    ensures NoMore(cfg, s, job, h)
  {
    WithIsLocal(s, job, h);
    HeldUsage(Bytes, Full(cfg).bytes, With(s, job, h), job);
    HeldUsage(Entries, Full(cfg).entries, With(s, job, h), job);
    HeldUsage(Bytes, Full(cfg).bytes, s, job);
    HeldUsage(Entries, Full(cfg).entries, s, job);
  }

  lemma WhileRunning(cfg: Config, s: Store, job: string, h: Holding)
    requires Accepts(cfg, s) && job in s.running && HoldingSafe(cfg, h)
    ensures Accepts(cfg, With(s, job, h))
  {
    RunningNoMore(cfg, s, job, h);
    assert job in Occupied(s);
    WithNoMore(cfg, s, job, h);
  }

  // One step of the queue.

  lemma Unchanged(s: Store, job: string)
    ensures With(s, job, Held(s, job)) == s.(reservations := s.reservations + {job})
  {
  }

  lemma StartedStore(q: State, job: string)
    requires job in q.pending && job in q.reservations
    ensures StoreOf(Start(q, job)) == With(StoreOf(q), job, Held(StoreOf(q), job).(claim := Some(q.pending[job].size)))
  {
  }

  lemma SnapshotStore(q: State, job: string, tree: Option<Tree>)
    requires job in q.reservations
    ensures StoreOf(SetSnapshot(q, job, tree)) == With(StoreOf(q), job, Held(StoreOf(q), job).(snapshot := tree))
  {
  }

  lemma TempStore(q: State, job: string, tree: Option<Tree>)
    requires job in q.reservations
    ensures StoreOf(SetTemp(q, job, tree)) == With(StoreOf(q), job, Held(StoreOf(q), job).(temp := tree))
  {
  }

  lemma PublishedStore(q: State, job: string, action: string, status: Status)
    requires job in q.temps && job !in q.results && job in q.reservations
    ensures StoreOf(Publish(q, job, action, status))
         == With(StoreOf(q), job, Held(StoreOf(q), job).(temp := None, result := Some(q.temps[job])))
  {
  }

  lemma RetiredStore(q: State, job: string)
    requires job in q.reservations
    ensures StoreOf(RetireRunning(q, job)) == With(StoreOf(q), job, Held(StoreOf(q), job).(claim := None))
  {
  }

  lemma ReservingKept(cfg: Config, q: State, job: string)
    requires Accepts(cfg, StoreOf(q)) && CanReserve(cfg, q, job)
    ensures Accepts(cfg, StoreOf(Reserve(q, job)))
  {
    var s := StoreOf(q);
    Unchanged(s, job);
    AcceptedIsSafe(cfg, s, job);
    HeldSafe(cfg, s, job);
    assert job in q.running ==> job in Occupied(s);
    SameNoMore(cfg, s, job, Held(s, job));
    WithNoMore(cfg, s, job, Held(s, job));
  }

  lemma ClaimingKept(cfg: Config, q: State, job: string)
    requires Accepts(cfg, StoreOf(q)) && job in q.pending && job in q.reservations && job !in q.running && CanReserve(cfg, q, job)
    requires q.pending[job].size <= cfg.maxRequestBytes
    ensures Accepts(cfg, StoreOf(Start(q, job)))
  {
    hide Accepts, Safe, AllWithinFull, Reserved, Occupied, StoreOf, Start;
    var s := StoreOf(q);
    StartedStore(q, job);
    AcceptedIsSafe(cfg, s, job);
    HeldSafe(cfg, s, job);
    WithRoom(cfg, s, job, Held(s, job).(claim := Some(q.pending[job].size)));
  }

  lemma SnapshottingKept(cfg: Config, q: State, job: string, tree: Option<Tree>)
    requires Accepts(cfg, StoreOf(q)) && Enabled(cfg, q, Snapshotting(job, tree))
    ensures Accepts(cfg, StoreOf(SetSnapshot(q, job, tree)))
  {
    var s := StoreOf(q);
    assert job in Occupied(s);
    SnapshotStore(q, job, tree);
    WithIsLocal(s, job, Held(s, job).(snapshot := tree));
    HeldSafe(cfg, StoreOf(SetSnapshot(q, job, tree)), job);
    WhileRunning(cfg, s, job, Held(s, job).(snapshot := tree));
  }

  lemma StagingKept(cfg: Config, q: State, job: string, tree: Option<Tree>)
    requires Accepts(cfg, StoreOf(q)) && Enabled(cfg, q, Label.Staging(job, tree))
    ensures Accepts(cfg, StoreOf(SetTemp(q, job, tree)))
  {
    var s := StoreOf(q);
    assert job in q.running ==> job in Occupied(s);
    TempStore(q, job, tree);
    WithIsLocal(s, job, Held(s, job).(temp := tree));
    HeldSafe(cfg, StoreOf(SetTemp(q, job, tree)), job);
    if job in q.running {
      WhileRunning(cfg, s, job, Held(s, job).(temp := tree));
    } else {
      WithRoom(cfg, s, job, Held(s, job).(temp := tree));
    }
  }

  /** Publication moves a tree within its job. */
  lemma PublishingKept(cfg: Config, q: State, job: string, action: string, status: Status)
    requires Accepts(cfg, StoreOf(q)) && job in q.temps && job !in q.results
    ensures Accepts(cfg, StoreOf(Publish(q, job, action, status)))
  {
    var s := StoreOf(q);
    assert job in Occupied(s);
    PublishedStore(q, job, action, status);
    var h := Held(s, job).(temp := None, result := Some(q.temps[job]));
    AcceptedIsSafe(cfg, s, job);
    HeldSafe(cfg, s, job);
    SameNoMore(cfg, s, job, h);
    WithNoMore(cfg, s, job, h);
  }

  lemma RunningReserved(cfg: Config, q: State, job: string)
    requires Accepts(cfg, StoreOf(q)) && job in q.running
    ensures job in q.reservations && job in StoreOf(q).running
  {
    assert job in Occupied(StoreOf(q));
  }

  lemma RetiringKept(cfg: Config, q: State, job: string)
    requires Accepts(cfg, StoreOf(q)) && job in q.running
    ensures Accepts(cfg, StoreOf(RetireRunning(q, job)))
  {
    hide Accepts, Safe, AllWithinFull, Reserved, Occupied, StoreOf, RetireRunning;
    var s := StoreOf(q);
    RunningReserved(cfg, q, job);
    RetiredStore(q, job);
    AcceptedIsSafe(cfg, s, job);
    HeldSafe(cfg, s, job);
    WhileRunning(cfg, s, job, Held(s, job).(claim := None));
  }

  lemma IngestConsistent(cfg: Config, q: State, job: string, r: Request)
    requires Consistent(cfg, q) && job !in q.running && job !in q.results && r.size <= cfg.maxRequestBytes
    ensures Consistent(cfg, q.(pending := q.pending[job := r]))
  {
  }

  lemma StartConsistent(cfg: Config, q: State, job: string)
    requires Consistent(cfg, q) && job in q.pending
    ensures Consistent(cfg, Start(q, job))
  {
  }

  lemma PublishConsistent(cfg: Config, q: State, job: string, status: Status)
    requires Consistent(cfg, q) && job in q.temps && (job in q.running || job in q.pending)
    ensures Consistent(cfg, Publish(q, job, RequestOf(q, job).action, status))
  {
  }

  lemma StepConsistent(cfg: Config, q: State, l: Label)
    requires Consistent(cfg, q) && Enabled(cfg, q, l)
    ensures Consistent(cfg, Apply(cfg, q, l))
  {
    match l
    case Ingesting(job, r) => IngestConsistent(cfg, q, job, r);
    case Claiming(job) => StartConsistent(cfg, q, job);
    case Publishing(job, status) => PublishConsistent(cfg, q, job, status);
    case _ =>
  }

  lemma StepAccepted(cfg: Config, q: State, l: Label)
    requires Orderly(cfg, q) && Enabled(cfg, q, l)
    ensures Accepts(cfg, StoreOf(Apply(cfg, q, l)))
  {
    match l
    case Reserving(job) => ReservingKept(cfg, q, job);
    case Claiming(job) => ClaimingKept(cfg, q, job);
    case Snapshotting(job, tree) => SnapshottingKept(cfg, q, job, tree);
    case Staging(job, tree) => StagingKept(cfg, q, job, tree);
    case Publishing(job, status) => PublishingKept(cfg, q, job, RequestOf(q, job).action, status);
    case Retiring(job) => if job in q.running { RetiringKept(cfg, q, job); }
    case _ =>
  }

  lemma ResultsReserved(cfg: Config, q: State, job: string)
    requires Accepts(cfg, StoreOf(q)) && (job in q.results || job in q.running || job in q.temps || job in q.jobs)
    ensures job in q.reservations
  {
    assert job in Occupied(StoreOf(q));
  }

  lemma StepKept(cfg: Config, q: State, l: Label)
    requires Orderly(cfg, q)
    ensures Orderly(cfg, Apply(cfg, q, l))
  {
    if Enabled(cfg, q, l) {
      StepConsistent(cfg, q, l);
      StepAccepted(cfg, q, l);
    }
  }

  lemma EmptyKept(cfg: Config)
    ensures Orderly(cfg, EMPTY)
  {
    var s := StoreOf(EMPTY);
    TotalZero(Charges(Bytes, Full(cfg).bytes, s));
    TotalZero(Charges(Entries, Full(cfg).entries, s));
  }

  lemma {:induction false} RunKept(cfg: Config, labels: seq<Label>)
    ensures Orderly(cfg, Run(cfg, labels))
  {
    if labels == [] {
      EmptyKept(cfg);
    } else {
      RunKept(cfg, labels[..|labels| - 1]);
      StepKept(cfg, Run(cfg, labels[..|labels| - 1]), labels[|labels| - 1]);
    }
  }

  // What the allocator's room means.

  /** The worst case of a job is two snapshots, its log and 16 KiB, and as many
      entries as two snapshots and 8 more, as far as 64 bits reach. */
  lemma FullIsWorstCase(cfg: Config)
    ensures Full(cfg).bytes == Saturating(2 * cfg.maxSnapshotBytes + cfg.maxLogBytes + 16384)
    ensures Full(cfg).entries == Saturating(2 * cfg.maxSnapshotEntries + 8)
  {
  }

  /** The storage with one more job claimed. */
  function Claimed(s: Store, job: string, size: nat): Store {
    s.(reservations := s.reservations + {job}, running := s.running[job := size])
  }

  lemma OneMore(ids: set<string>, id: string)
    requires id !in ids
    ensures |ids + {id}| == |ids| + 1
  {
  }

  lemma OccupiedOnceClaimed(s: Store, job: string, size: nat, other: string)
    ensures other in Occupied(Claimed(s, job, size)) <==> other in Occupied(s) || other == job
  {
  }

  lemma ClaimedOccupies(s: Store, job: string, size: nat)
    requires job !in Occupied(s)
    ensures Occupied(Claimed(s, job, size)) == Occupied(s) + {job} && |Occupied(Claimed(s, job, size))| == |Occupied(s)| + 1
  {
    hide Occupied, Claimed;
    forall other
      ensures other in Occupied(Claimed(s, job, size)) <==> other in Occupied(s) + {job}
    {
      OccupiedOnceClaimed(s, job, size, other);
    }
    OneMore(Occupied(s), job);
  }

  lemma ClaimedReserves(s: Store, job: string, size: nat)
    ensures |Claimed(s, job, size).reservations| == if job in s.reservations then |s.reservations| else |s.reservations| + 1
  {
    assert job in s.reservations ==> s.reservations + {job} == s.reservations;
  }

  lemma ClaimedOnly(s: Store, job: string, size: nat)
    ensures OnlyJob(s, Claimed(s, job, size), job)
  {
  }

  lemma Unoccupied(f: Tree -> nat, full: nat, s: Store, job: string)
    requires job !in Occupied(s)
    ensures Charge(f, full, s, job) == 0
  {
  }

  lemma ClaimedCharges(cfg: Config, s: Store, job: string, size: nat)
    requires job !in Occupied(s)
    ensures var s' := Claimed(s, job, size);
      && ChargedBytes(cfg, s') == ChargedBytes(cfg, s) + Full(cfg).bytes
      && ChargedEntries(cfg, s') == ChargedEntries(cfg, s) + Full(cfg).entries
  {
    var s' := Claimed(s, job, size);
    Unoccupied(Bytes, Full(cfg).bytes, s, job);
    Unoccupied(Entries, Full(cfg).entries, s, job);
    ClaimedOnly(s, job, size);
    hide Full, OnlyJob, Charges, Occupied, Usage;
    OneCharge(Bytes, Full(cfg).bytes, s, s', job);
    OneCharge(Entries, Full(cfg).entries, s, s', job);
  }

  lemma ClaimedSafe(cfg: Config, s: Store, job: string, size: nat)
    requires Accepts(cfg, s) && job !in Occupied(s) && size <= cfg.maxRequestBytes
    ensures var s' := Claimed(s, job, size); Occupied(s') <= s'.reservations && Safe(cfg, s') && AllWithinFull(cfg, s')
  {
    var s' := Claimed(s, job, size);
    ClaimedOnly(s, job, size);
    AcceptedIsSafe(cfg, s, job);
    assert JobSafe(cfg, s', job);
    SafeAfter(cfg, s, s', job);
  }

  /** There is room for a job that holds nothing yet exactly when the storage with
      that job claimed is accepted. */
  lemma RoomIffClaimFits(cfg: Config, s: Store, job: string, size: nat)
    requires Accepts(cfg, s) && job !in Occupied(s) && size <= cfg.maxRequestBytes
    ensures Room(cfg, s, job) <==> Accepts(cfg, Claimed(s, job, size))
  {
    hide Safe, AllWithinFull, Occupied, ChargedBytes, ChargedEntries, Full, OnlyJob;
    ClaimedOccupies(s, job, size);
    ClaimedReserves(s, job, size);
    ClaimedCharges(cfg, s, job, size);
    ClaimedSafe(cfg, s, job, size);
  }
}
