/** The worker's retained-storage allocator: a running job is charged its worst
    case, every other job the trees it keeps. */
module Retained {
  import opened Wrappers
  import opened Totals
  import opened Trees

  datatype Config = Config(
    maxSnapshotBytes: U64,
    maxSnapshotEntries: U64,
    maxLogBytes: U64,
    maxRequestBytes: U64,
    maxResults: U64,
    maxBytes: U64,
    maxEntries: U64)

  function Saturating(n: nat): U64 {
    if n <= U64_MAX then n else U64_MAX
  }

  /** The worst case of one job. */
  function Full(cfg: Config): Budget {
    Budget(Saturating(Saturating(Saturating(cfg.maxSnapshotBytes * 2) + cfg.maxLogBytes) + 16 * 1024),
           Saturating(Saturating(cfg.maxSnapshotEntries * 2) + 8))
  }

  /** What a job keeps on disk: an id receipt, the size of its running claim, its
      published result, the staging of a result and its snapshot. */
  datatype Store = Store(
    reservations: set<string>,
    running: map<string, nat>,
    results: map<string, Tree>,
    temps: map<string, Tree>,
    jobs: map<string, Tree>)

  // What the allocator must compute.

  ghost function Of(f: Tree -> nat, trees: map<string, Tree>, job: string): nat {
    if job in trees then f(trees[job]) else 0
  }

  /** The actual usage of one job. */
  ghost function Usage(f: Tree -> nat, s: Store, job: string): nat {
    Of(f, s.results, job) + Of(f, s.temps, job) + Of(f, s.jobs, job)
  }

  ghost function Charge(f: Tree -> nat, full: nat, s: Store, job: string): nat {
    if job in s.running then full else Usage(f, s, job)
  }

  ghost function Charges(f: Tree -> nat, full: nat, s: Store): map<string, nat> {
    map job | job in s.reservations :: Charge(f, full, s, job)
  }

  ghost function ChargedBytes(cfg: Config, s: Store): nat {
    Total(Charges(Bytes, Full(cfg).bytes, s))
  }

  ghost function ChargedEntries(cfg: Config, s: Store): nat {
    Total(Charges(Entries, Full(cfg).entries, s))
  }

  function Occupied(s: Store): set<string> {
    s.running.Keys + s.results.Keys + s.temps.Keys + s.jobs.Keys
  }

  ghost predicate TreesAllowed(trees: map<string, Tree>, snapshot: bool) {
    forall job :: job in trees ==> trees[job].Folder? && Allowed(trees[job], 0, snapshot)
  }

  ghost predicate WithinFull(cfg: Config, s: Store, job: string) {
    Usage(Bytes, s, job) <= Full(cfg).bytes && Usage(Entries, s, job) <= Full(cfg).entries
  }

  predicate Reserved(cfg: Config, s: Store) {
    |s.reservations| <= 4096 && Occupied(s) <= s.reservations && |Occupied(s)| <= cfg.maxResults
  }

  ghost predicate Safe(cfg: Config, s: Store) {
    && (forall job :: job in s.running ==> s.running[job] <= cfg.maxRequestBytes)
    && TreesAllowed(s.results, false) && TreesAllowed(s.temps, false) && TreesAllowed(s.jobs, true)
  }

  ghost predicate AllWithinFull(cfg: Config, s: Store) {
    forall job :: job in Occupied(s) ==> WithinFull(cfg, s, job)
  }

  /** Storage that the allocator accepts. */
  ghost predicate Accepts(cfg: Config, s: Store) {
    && Reserved(cfg, s) && Safe(cfg, s) && AllWithinFull(cfg, s)
    && ChargedBytes(cfg, s) <= cfg.maxBytes && ChargedEntries(cfg, s) <= cfg.maxEntries
  }

  /** The checks on one job's own storage. */
  ghost predicate JobSafe(cfg: Config, s: Store, job: string) {
    && (job in s.running ==> s.running[job] <= cfg.maxRequestBytes)
    && (job in s.results ==> s.results[job].Folder? && Allowed(s.results[job], 0, false))
    && (job in s.temps ==> s.temps[job].Folder? && Allowed(s.temps[job], 0, false))
    && (job in s.jobs ==> s.jobs[job].Folder? && Allowed(s.jobs[job], 0, true))
    && WithinFull(cfg, s, job)
  }

  /** The allocator has room for the worst case of one more job. */
  ghost predicate Room(cfg: Config, s: Store, job: string) {
    && |Occupied(s)| < cfg.maxResults && (job in s.reservations || |s.reservations| < 4096)
    && ChargedBytes(cfg, s) + Full(cfg).bytes <= cfg.maxBytes && ChargedEntries(cfg, s) + Full(cfg).entries <= cfg.maxEntries
  }

  // The traversal.

  /** One directory entry of `running`, `results` or `jobs`. */
  datatype Entry = Claim(job: string) | Final(job: string) | Staged(job: string) | Snapshot(job: string)

  predicate Exists(s: Store, e: Entry) {
    match e
    case Claim(job) => job in s.running
    case Final(job) => job in s.results
    case Staged(job) => job in s.temps
    case Snapshot(job) => job in s.jobs
  }

  function TreeAt(s: Store, e: Entry): Tree
    requires Exists(s, e) && !e.Claim?
  {
    match e
    case Final(job) => s.results[job]
    case Staged(job) => s.temps[job]
    case Snapshot(job) => s.jobs[job]
  }

  /** A listing of the three directories, each in any order, claims first. */
  ghost predicate Lists(s: Store, listing: seq<Entry>) {
    && (forall e :: e in listing <==> Exists(s, e))
    && (forall i, j :: 0 <= i < j < |listing| ==> listing[i] != listing[j])
    && (forall i, j :: 0 <= i < j < |listing| && listing[j].Claim? ==> listing[i].Claim?)
  }

  /** The ids marked running and occupied are those of the entries `seen`. */
  predicate Marked(s: Store, seen: set<Entry>, running: set<string>, occupied: set<string>) {
    && running <= s.running.Keys && occupied <= Occupied(s)
    && forall e :: e in seen ==> e.job in occupied && (e.Claim? ==> e.job in running)
  }

  /** The part of one job's charge that the entries `seen` account for. */
  ghost function UsedBy(f: Tree -> nat, s: Store, seen: set<Entry>, job: string): nat {
    (if Final(job) in seen then Of(f, s.results, job) else 0)
    + (if Staged(job) in seen then Of(f, s.temps, job) else 0)
    + (if Snapshot(job) in seen then Of(f, s.jobs, job) else 0)
  }

  ghost function ChargedBy(f: Tree -> nat, full: nat, s: Store, seen: set<Entry>, job: string): nat {
    if job in s.running then (if Claim(job) in seen then full else 0) else UsedBy(f, s, seen, job)
  }

  ghost function Partial(f: Tree -> nat, full: nat, s: Store, seen: set<Entry>): map<string, nat> {
    map job | job in s.reservations :: ChargedBy(f, full, s, seen, job)
  }

  lemma NothingSeen(f: Tree -> nat, full: nat, s: Store)
    ensures Total(Partial(f, full, s, {})) == 0
  {
    TotalZero(Partial(f, full, s, {}));
  }

  lemma AllSeen(f: Tree -> nat, full: nat, s: Store, seen: set<Entry>)
    requires forall e :: Exists(s, e) ==> e in seen
    ensures Partial(f, full, s, seen) == Charges(f, full, s)
  {
    forall job | job in s.reservations
      ensures ChargedBy(f, full, s, seen, job) == Charge(f, full, s, job)
    {
      assert job in s.running ==> Exists(s, Claim(job));
      assert job in s.results ==> Exists(s, Final(job));
      assert job in s.temps ==> Exists(s, Staged(job));
      assert job in s.jobs ==> Exists(s, Snapshot(job));
    }
  }

  lemma SeenIsPart(f: Tree -> nat, full: nat, s: Store, seen: set<Entry>)
    ensures Total(Partial(f, full, s, seen)) <= Total(Charges(f, full, s))
  {
    TotalLeq(Partial(f, full, s, seen), Charges(f, full, s));
  }

  lemma SeeOne(f: Tree -> nat, full: nat, s: Store, seen: set<Entry>, e: Entry, more: nat)
    requires e.job in s.reservations
    requires ChargedBy(f, full, s, seen + {e}, e.job) == ChargedBy(f, full, s, seen, e.job) + more
    ensures Total(Partial(f, full, s, seen + {e})) == Total(Partial(f, full, s, seen)) + more
  {
    var before, after := Partial(f, full, s, seen), Partial(f, full, s, seen + {e});
    assert after == before[e.job := before[e.job] + more];
    TotalUpdate(before, e.job, before[e.job] + more);
  }

  lemma SeeClaim(f: Tree -> nat, full: nat, s: Store, seen: set<Entry>, e: Entry)
    requires e.Claim? && Exists(s, e) && e !in seen && e.job in s.reservations
    ensures Total(Partial(f, full, s, seen + {e})) == Total(Partial(f, full, s, seen)) + full
  {
    SeeOne(f, full, s, seen, e, full);
  }

  lemma SeeTree(f: Tree -> nat, full: nat, s: Store, seen: set<Entry>, e: Entry)
    requires !e.Claim? && Exists(s, e) && e !in seen && e.job in s.reservations
    ensures UsedBy(f, s, seen + {e}, e.job) == UsedBy(f, s, seen, e.job) + f(TreeAt(s, e)) <= Usage(f, s, e.job)
    ensures Total(Partial(f, full, s, seen + {e}))
         == Total(Partial(f, full, s, seen)) + if e.job in s.running then 0 else f(TreeAt(s, e))
  {
    SeeOne(f, full, s, seen, e, if e.job in s.running then 0 else f(TreeAt(s, e)));
  }

  /** The variables of the traversal: what is left of each job's budget, the
      running and the occupied ids, and the running totals. */
  datatype Tally = Tally(budgets: map<string, Budget>, running: set<string>, occupied: set<string>, bytes: nat, entries: nat)

  ghost predicate BudgetsLeft(cfg: Config, s: Store, seen: set<Entry>, budgets: map<string, Budget>) {
    && budgets.Keys == s.reservations
    && forall job :: job in budgets ==>
         && budgets[job].bytes + UsedBy(Bytes, s, seen, job) == Full(cfg).bytes
         && budgets[job].entries + UsedBy(Entries, s, seen, job) == Full(cfg).entries
  }

  ghost function SeenBytes(cfg: Config, s: Store, seen: set<Entry>): nat {
    Total(Partial(Bytes, Full(cfg).bytes, s, seen))
  }

  ghost function SeenEntries(cfg: Config, s: Store, seen: set<Entry>): nat {
    Total(Partial(Entries, Full(cfg).entries, s, seen))
  }

  /** Budgets and totals account for the entries `seen`. */
  ghost predicate Counted(cfg: Config, s: Store, seen: set<Entry>, t: Tally) {
    && BudgetsLeft(cfg, s, seen, t.budgets)
    && t.bytes == SeenBytes(cfg, s, seen) <= cfg.maxBytes && t.entries == SeenEntries(cfg, s, seen) <= cfg.maxEntries
  }

  /** The checks one entry must pass by itself. */
  ghost predicate Checked(cfg: Config, s: Store, e: Entry)
    requires Exists(s, e)
  {
    if e.Claim? then s.running[e.job] <= cfg.maxRequestBytes
    else TreeAt(s, e).Folder? && Allowed(TreeAt(s, e), 0, e.Snapshot?)
  }

  lemma AcceptsChecks(cfg: Config, s: Store, e: Entry)
    requires Accepts(cfg, s) && Exists(s, e)
    ensures Checked(cfg, s, e) && e.job in s.reservations && e.job in Occupied(s)
  {
  }

  /** Whatever one entry or the totals so far violate, the storage violates. */
  lemma Refused(cfg: Config, s: Store, seen: set<Entry>, e: Entry)
    requires Exists(s, e)
    requires !Checked(cfg, s, e) || SeenBytes(cfg, s, seen) > cfg.maxBytes || SeenEntries(cfg, s, seen) > cfg.maxEntries
    ensures !Accepts(cfg, s)
  {
    SeenIsPart(Bytes, Full(cfg).bytes, s, seen);
    SeenIsPart(Entries, Full(cfg).entries, s, seen);
    if Accepts(cfg, s) {
      AcceptsChecks(cfg, s, e);
    }
  }

  lemma UsedElsewhere(f: Tree -> nat, s: Store, seen: set<Entry>, e: Entry, job: string)
    requires e.Claim? || job != e.job
    ensures UsedBy(f, s, seen + {e}, job) == UsedBy(f, s, seen, job)
  {
  }

  lemma ClaimBudgets(cfg: Config, s: Store, seen: set<Entry>, e: Entry, budgets: map<string, Budget>)
    requires e.Claim? && BudgetsLeft(cfg, s, seen, budgets)
    ensures BudgetsLeft(cfg, s, seen + {e}, budgets)
  {
    forall job | job in budgets
      ensures budgets[job].bytes + UsedBy(Bytes, s, seen + {e}, job) == Full(cfg).bytes
      ensures budgets[job].entries + UsedBy(Entries, s, seen + {e}, job) == Full(cfg).entries
    {
      UsedElsewhere(Bytes, s, seen, e, job);
      UsedElsewhere(Entries, s, seen, e, job);
    }
  }

  lemma TreeBudgets(cfg: Config, s: Store, seen: set<Entry>, e: Entry, budgets: map<string, Budget>, left: Budget)
    requires !e.Claim? && Exists(s, e) && e !in seen && e.job in s.reservations && BudgetsLeft(cfg, s, seen, budgets)
    requires left.bytes + Bytes(TreeAt(s, e)) == budgets[e.job].bytes && left.entries + Entries(TreeAt(s, e)) == budgets[e.job].entries
    ensures BudgetsLeft(cfg, s, seen + {e}, budgets[e.job := left])
  {
    var budgets' := budgets[e.job := left];
    forall job | job in budgets'
      ensures budgets'[job].bytes + UsedBy(Bytes, s, seen + {e}, job) == Full(cfg).bytes
      ensures budgets'[job].entries + UsedBy(Entries, s, seen + {e}, job) == Full(cfg).entries
    {
      if job == e.job {
        SeeTree(Bytes, 0, s, seen, e);
        SeeTree(Entries, 0, s, seen, e);
      } else {
        UsedElsewhere(Bytes, s, seen, e, job);
        UsedElsewhere(Entries, s, seen, e, job);
      }
    }
  }

  /** A running claim: charge the worst case. */
  method VisitClaim(cfg: Config, s: Store, e: Entry, t: Tally, ghost seen: set<Entry>) returns (r: Option<Tally>)
    requires e.Claim? && Exists(s, e) && e !in seen && e.job in s.reservations && Counted(cfg, s, seen, t)
    ensures r.Some? ==>
      && Checked(cfg, s, e) && Counted(cfg, s, seen + {e}, r.value)
      && r.value.occupied == t.occupied && r.value.running == t.running + {e.job}
    ensures r.None? ==> !Accepts(cfg, s)
  {
    ClaimBudgets(cfg, s, seen, e, t.budgets);
    SeeClaim(Bytes, Full(cfg).bytes, s, seen, e);
    SeeClaim(Entries, Full(cfg).entries, s, seen, e);
    var bytes, entries := t.bytes + Full(cfg).bytes, t.entries + Full(cfg).entries;
    if s.running[e.job] > cfg.maxRequestBytes || bytes > cfg.maxBytes || entries > cfg.maxEntries {
      Refused(cfg, s, seen + {e}, e);
      return None;
    }
    return Some(t.(running := t.running + {e.job}, bytes := bytes, entries := entries));
  }

  lemma TreeTooBig(cfg: Config, s: Store, e: Entry, b: Budget, seen: set<Entry>)
    requires !e.Claim? && Exists(s, e) && e !in seen && e.job in s.reservations && TreeAt(s, e).Folder?
    requires b.bytes + UsedBy(Bytes, s, seen, e.job) == Full(cfg).bytes
    requires b.entries + UsedBy(Entries, s, seen, e.job) == Full(cfg).entries
    requires !Fits(TreeAt(s, e), b, 0, e.Snapshot?)
    ensures !Accepts(cfg, s)
  {
    SeeTree(Bytes, 0, s, seen, e);
    SeeTree(Entries, 0, s, seen, e);
    if Accepts(cfg, s) {
      AcceptsChecks(cfg, s, e);
    }
  }

  /** A retained tree: charge it to its job's budget, and to the totals unless the
      job's worst case is charged already. */
  method VisitTree(cfg: Config, s: Store, e: Entry, t: Tally, ghost seen: set<Entry>) returns (r: Option<Tally>)
    requires !e.Claim? && Exists(s, e) && e !in seen && e.job in s.reservations && Counted(cfg, s, seen, t)
    requires e.job in t.running <==> e.job in s.running
    ensures r.Some? ==>
      && Checked(cfg, s, e) && Counted(cfg, s, seen + {e}, r.value)
      && r.value.occupied == t.occupied && r.value.running == t.running
    ensures r.None? ==> !Accepts(cfg, s)
  {
    var tree, before := TreeAt(s, e), t.budgets[e.job];
    if !tree.Folder? {
      Refused(cfg, s, seen, e);
      return None;
    }
    var scanned := Scan(tree, before, 0, e.Snapshot?);
    if scanned.None? {
      TreeTooBig(cfg, s, e, before, seen);
      return None;
    }
    var left := scanned.value;
    TreeBudgets(cfg, s, seen, e, t.budgets, left);
    SeeTree(Bytes, Full(cfg).bytes, s, seen, e);
    SeeTree(Entries, Full(cfg).entries, s, seen, e);
    var budgets := t.budgets[e.job := left];
    if e.job in t.running {
      return Some(t.(budgets := budgets));
    }
    var bytes, entries := t.bytes + (before.bytes - left.bytes), t.entries + (before.entries - left.entries);
    if bytes > cfg.maxBytes || entries > cfg.maxEntries {
      Refused(cfg, s, seen + {e}, e);
      return None;
    }
    return Some(t.(budgets := budgets, bytes := bytes, entries := entries));
  }

  datatype RetainedUsage = RetainedUsage(receipts: set<string>, running: set<string>, bytes: nat, entries: nat, results: nat)

  ghost function Retains(cfg: Config, s: Store): RetainedUsage {
    RetainedUsage(s.reservations, s.running.Keys, ChargedBytes(cfg, s), ChargedEntries(cfg, s), |Occupied(s)|)
  }

  function Seen(listing: seq<Entry>): set<Entry> {
    set e | e in listing
  }

  ghost predicate AllChecked(cfg: Config, s: Store, seen: set<Entry>) {
    forall e :: e in seen ==> Exists(s, e) && Checked(cfg, s, e)
  }

  /** Directories too long to list belong to storage that is refused. */
  lemma TooLong(cfg: Config, s: Store)
    requires Reserved(cfg, s)
    ensures |s.running| <= Saturating(cfg.maxResults * 2) && |s.jobs| <= Saturating(cfg.maxResults * 2)
    ensures |s.results| + |s.temps| <= Saturating(cfg.maxResults * 2)
  {
    Sizes(s);
    SubsetSize(Occupied(s), s.reservations);
  }

  lemma Sizes(s: Store)
    ensures |s.running| <= |Occupied(s)| && |s.jobs| <= |Occupied(s)| && |s.results| <= |Occupied(s)| && |s.temps| <= |Occupied(s)|
  {
    MapSize(s.running, Occupied(s));
    MapSize(s.jobs, Occupied(s));
    MapSize(s.results, Occupied(s));
    MapSize(s.temps, Occupied(s));
  }

  lemma MapSize<V>(m: map<string, V>, ids: set<string>)
    requires m.Keys <= ids
    ensures |m| <= |ids|
  {
    SubsetSize(m.Keys, ids);
    assert |m.Keys| == |m|;
  }

  lemma AllUsed(f: Tree -> nat, s: Store, seen: set<Entry>, job: string)
    requires forall e :: Exists(s, e) ==> e in seen
    ensures UsedBy(f, s, seen, job) == Usage(f, s, job)
  {
    assert job in s.results ==> Exists(s, Final(job));
    assert job in s.temps ==> Exists(s, Staged(job));
    assert job in s.jobs ==> Exists(s, Snapshot(job));
  }

  lemma AllMarked(s: Store, seen: set<Entry>, running: set<string>, occupied: set<string>)
    requires (forall e :: Exists(s, e) ==> e in seen) && Marked(s, seen, running, occupied)
    ensures running == s.running.Keys && occupied == Occupied(s)
  {
    forall job | job in Occupied(s)
      ensures job in occupied && (job in s.running ==> job in running)
    {
      assert job in s.running ==> Claim(job) in seen;
      assert job in s.results ==> Final(job) in seen;
      assert job in s.temps ==> Staged(job) in seen;
      assert job in s.jobs ==> Snapshot(job) in seen;
      assert Claim(job).job == job && Final(job).job == job && Staged(job).job == job && Snapshot(job).job == job;
    }
  }

  lemma VisitedAll(cfg: Config, s: Store, seen: set<Entry>, budgets: map<string, Budget>)
    requires (forall e :: e in seen <==> Exists(s, e)) && BudgetsLeft(cfg, s, seen, budgets) && Occupied(s) <= s.reservations
    ensures SeenBytes(cfg, s, seen) == ChargedBytes(cfg, s) && SeenEntries(cfg, s, seen) == ChargedEntries(cfg, s)
    ensures AllWithinFull(cfg, s)
  {
    AllSeen(Bytes, Full(cfg).bytes, s, seen);
    AllSeen(Entries, Full(cfg).entries, s, seen);
    forall job | job in Occupied(s)
      ensures WithinFull(cfg, s, job)
    {
      AllUsed(Bytes, s, seen, job);
      AllUsed(Entries, s, seen, job);
    }
  }

  lemma CheckedAll(cfg: Config, s: Store, seen: set<Entry>)
    requires (forall e :: e in seen <==> Exists(s, e)) && AllChecked(cfg, s, seen)
    ensures Safe(cfg, s)
  {
    forall job | job in s.running
      ensures s.running[job] <= cfg.maxRequestBytes
    {
      assert Claim(job) in seen;
    }
    forall job | job in s.results
      ensures s.results[job].Folder? && Allowed(s.results[job], 0, false)
    {
      assert Final(job) in seen;
    }
    forall job | job in s.temps
      ensures s.temps[job].Folder? && Allowed(s.temps[job], 0, false)
    {
      assert Staged(job) in seen;
    }
    forall job | job in s.jobs
      ensures s.jobs[job].Folder? && Allowed(s.jobs[job], 0, true)
    {
      assert Snapshot(job) in seen;
    }
  }

  /** Everything the traversal knows after the entries `seen`. */
  ghost predicate Tallied(cfg: Config, s: Store, seen: set<Entry>, t: Tally) {
    && AllChecked(cfg, s, seen) && Counted(cfg, s, seen, t) && Marked(s, seen, t.running, t.occupied)
    && t.occupied <= s.reservations && |t.occupied| <= cfg.maxResults
  }

  /** An unreserved or one too many id. */
  lemma Unreservable(cfg: Config, s: Store, e: Entry, occupied: set<string>)
    requires Exists(s, e) && occupied <= Occupied(s) && (e.job !in s.reservations || |occupied| > cfg.maxResults)
    ensures !Reserved(cfg, s)
  {
    assert e.job in Occupied(s);
    SubsetSize(occupied, Occupied(s));
  }

  /** One entry of the traversal. */
  method Visit(cfg: Config, s: Store, e: Entry, t: Tally, ghost seen: set<Entry>) returns (r: Option<Tally>)
    requires Exists(s, e) && e !in seen && Tallied(cfg, s, seen, t) && (e.Claim? || t.running == s.running.Keys)
    ensures r.Some? ==> Tallied(cfg, s, seen + {e}, r.value)
    ensures r.None? ==> !Accepts(cfg, s)
  {
    if e.job !in s.reservations {
      Unreservable(cfg, s, e, t.occupied);
      return None;
    }
    var occupied := t.occupied + {e.job};
    assert occupied <= Occupied(s);
    if |occupied| > cfg.maxResults {
      Unreservable(cfg, s, e, occupied);
      return None;
    }
    var t' := t.(occupied := occupied);
    if e.Claim? {
      r := VisitClaim(cfg, s, e, t', seen);
    } else {
      r := VisitTree(cfg, s, e, t', seen);
    }
  }

  lemma Untouched(cfg: Config, s: Store)
    ensures Tallied(cfg, s, {}, Tally(map job | job in s.reservations :: Full(cfg), {}, {}, 0, 0))
  {
    NothingSeen(Bytes, Full(cfg).bytes, s);
    NothingSeen(Entries, Full(cfg).entries, s);
  }

  lemma ClaimsFirst(s: Store, listing: seq<Entry>, i: nat, running: set<string>, occupied: set<string>)
    requires Lists(s, listing) && i < |listing| && !listing[i].Claim? && Marked(s, Seen(listing[..i]), running, occupied)
    ensures running == s.running.Keys
  {
    forall job | job in s.running
      ensures job in running
    {
      assert Exists(s, Claim(job));
      var j :| 0 <= j < |listing| && listing[j] == Claim(job);
      assert j < i;
      assert listing[..i][j] == Claim(job);
      assert Claim(job) in Seen(listing[..i]) && Claim(job).job == job;
    }
  }

  /** The whole check, whatever the order of the directories. */
  method CheckRetained(cfg: Config, s: Store, listing: seq<Entry>) returns (r: Option<RetainedUsage>)
    requires Lists(s, listing)
    ensures r.Some? <==> Accepts(cfg, s)
    ensures r.Some? ==> r.value == Retains(cfg, s)
  {
    if |s.reservations| > 4096 {
      return None;
    }
    var limit := Saturating(cfg.maxResults * 2);
    if |s.running| > limit || |s.results| + |s.temps| > limit || |s.jobs| > limit {
      assert !Reserved(cfg, s) by {
        if Reserved(cfg, s) {
          TooLong(cfg, s);
        }
      }
      return None;
    }
    r := Traverse(cfg, s, listing);
  }

  method Traverse(cfg: Config, s: Store, listing: seq<Entry>) returns (r: Option<RetainedUsage>)
    requires Lists(s, listing) && |s.reservations| <= 4096
    ensures r.Some? <==> Accepts(cfg, s)
    ensures r.Some? ==> r.value == Retains(cfg, s)
  {
    var t := Tally(map job | job in s.reservations :: Full(cfg), {}, {}, 0, 0);
    ghost var seen: set<Entry> := {};
    Untouched(cfg, s);
    for i := 0 to |listing|
      invariant seen == Seen(listing[..i]) && Tallied(cfg, s, seen, t)
    {
      var e := listing[i];
      NextEntry(s, listing, i);
      if !e.Claim? {
        ClaimsFirst(s, listing, i, t.running, t.occupied);
      }
      var next := Visit(cfg, s, e, t, seen);
      if next.None? {
        return None;
      }
      t, seen := next.value, seen + {e};
    }
    assert listing[..|listing|] == listing;
    Traversed(cfg, s, seen, t);
    return Some(RetainedUsage(s.reservations, t.running, t.bytes, t.entries, |t.occupied|));
  }

  lemma NextEntry(s: Store, listing: seq<Entry>, i: nat)
    requires Lists(s, listing) && i < |listing|
    ensures Exists(s, listing[i]) && listing[i] !in Seen(listing[..i])
    ensures Seen(listing[..i + 1]) == Seen(listing[..i]) + {listing[i]}
  {
    assert listing[i] in listing;
    assert listing[..i + 1] == listing[..i] + [listing[i]];
  }

  lemma Traversed(cfg: Config, s: Store, seen: set<Entry>, t: Tally)
    requires (forall e :: e in seen <==> Exists(s, e)) && |s.reservations| <= 4096
    requires Tallied(cfg, s, seen, t)
    ensures Accepts(cfg, s)
    ensures RetainedUsage(s.reservations, t.running, t.bytes, t.entries, |t.occupied|) == Retains(cfg, s)
  {
    AllMarked(s, seen, t.running, t.occupied);
    VisitedAll(cfg, s, seen, t.budgets);
    CheckedAll(cfg, s, seen);
  }
}
