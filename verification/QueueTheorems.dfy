/** What holds of every run of the worker's queue, and of recovery interrupted
    anywhere. */
module QueueTheorems {
  import opened Wrappers
  import opened Totals
  import opened Trees
  import opened Retained
  import opened Queue
  import opened QueueRuns

  // Storage.

  ghost function Actual(f: Tree -> nat, s: Store): map<string, nat> {
    map job | job in s.reservations :: Usage(f, s, job)
  }

  lemma ActualIsCharged(f: Tree -> nat, full: nat, s: Store)
    requires forall job :: job in s.running ==> Usage(f, s, job) <= full
    ensures Total(Actual(f, s)) <= Total(Charges(f, full, s))
  {
    TotalLeq(Actual(f, s), Charges(f, full, s));
  }

  /** The allocator accepts every state the queue reaches, and what the trees of
      all jobs really use stays within the configured ceilings. */
  lemma StorageStaysWithin(cfg: Config, labels: seq<Label>)
    ensures var s := StoreOf(Run(cfg, labels));
      && Accepts(cfg, s)
      && Total(Actual(Bytes, s)) <= cfg.maxBytes && Total(Actual(Entries, s)) <= cfg.maxEntries
      && |Occupied(s)| <= cfg.maxResults
  {
    RunKept(cfg, labels);
    var s := StoreOf(Run(cfg, labels));
    forall job | job in s.running
      ensures WithinFull(cfg, s, job)
    {
      AcceptedIsSafe(cfg, s, job);
    }
    ActualIsCharged(Bytes, Full(cfg).bytes, s);
    ActualIsCharged(Entries, Full(cfg).entries, s);
  }

  // Dispatch.

  /** The id was claimed: it waits no more, and its receipt outlives everything. */
  predicate Spent(q: State, job: string) {
    job in q.reservations && job !in q.pending
  }

  lemma SpentStays(cfg: Config, q: State, l: Label, job: string)
    requires Spent(q, job)
    ensures Spent(Apply(cfg, q, l), job)
  {
  }

  lemma {:induction false} SpentForever(cfg: Config, labels: seq<Label>, k: nat, job: string)
    requires k <= |labels| && Spent(Run(cfg, labels[..k]), job)
    ensures Spent(Run(cfg, labels), job)
    decreases |labels|
  {
    if k == |labels| {
      assert labels[..k] == labels;
    } else {
      var before := labels[..|labels| - 1];
      assert before[..k] == labels[..k];
      SpentForever(cfg, before, k, job);
      SpentStays(cfg, Run(cfg, before), labels[|labels| - 1], job);
    }
  }

  ghost predicate ClaimedAt(cfg: Config, labels: seq<Label>, i: nat, job: string)
    requires i < |labels|
  {
    labels[i] == Claiming(job) && Enabled(cfg, Run(cfg, labels[..i]), labels[i])
  }

  /** No job is claimed twice, whatever is submitted, retired or recovered. */
  lemma EachJobIsClaimedOnce(cfg: Config, labels: seq<Label>, i: nat, j: nat, job: string)
    requires i < |labels| && j < |labels| && ClaimedAt(cfg, labels, i, job) && ClaimedAt(cfg, labels, j, job)
    ensures i == j
  {
    if i < j {
      ClaimedLater(cfg, labels, i, j, job);
    } else if j < i {
      ClaimedLater(cfg, labels, j, i, job);
    }
  }

  lemma ClaimSpends(cfg: Config, q: State, job: string)
    requires Enabled(cfg, q, Claiming(job))
    ensures Spent(Apply(cfg, q, Claiming(job)), job)
  {
  }

  lemma SpentIsNotClaimed(cfg: Config, q: State, job: string)
    requires Spent(q, job)
    ensures !Enabled(cfg, q, Claiming(job))
  {
  }

  lemma ClaimedLater(cfg: Config, labels: seq<Label>, i: nat, j: nat, job: string)
    requires i < j < |labels| && ClaimedAt(cfg, labels, i, job)
    ensures !ClaimedAt(cfg, labels, j, job)
  {
    var upto := labels[..i + 1];
    assert upto[..i] == labels[..i] && upto[|upto| - 1] == labels[i];
    ClaimSpends(cfg, Run(cfg, labels[..i]), job);
    assert labels[..j][..i + 1] == upto;
    SpentForever(cfg, labels[..j], i + 1, job);
    SpentIsNotClaimed(cfg, Run(cfg, labels[..j]), job);
  }

  // Results.

  predicate Extends(q: State, q': State) {
    forall job :: job in q.results ==> job in q'.results && q'.results[job] == q.results[job]
  }

  /** A terminal result is never replaced or lost. */
  lemma {:induction false} ResultsAreFinal(cfg: Config, labels: seq<Label>, k: nat)
    requires k <= |labels|
    ensures Extends(Run(cfg, labels[..k]), Run(cfg, labels))
    decreases |labels|
  {
    if k == |labels| {
      assert labels[..k] == labels;
    } else {
      var before, l := labels[..|labels| - 1], labels[|labels| - 1];
      assert before[..k] == labels[..k];
      ResultsAreFinal(cfg, before, k);
      StepExtends(cfg, Run(cfg, before), l);
    }
  }

  lemma StepExtends(cfg: Config, q: State, l: Label)
    ensures Extends(q, Apply(cfg, q, l))
  {
  }

  // Recovery.

  /** Recovery retires every claim with a result, keeps every result there was,
      puts nothing back in the queue, and has nothing left to do. */
  lemma RecoveryIsComplete(q: State, report: Tree)
    ensures var r := Recovered(q, report);
      && r.running == map[] && r.pending == q.pending && r.reservations == q.reservations && Extends(q, r)
      && (forall job :: job in q.running ==> job in r.results && job !in r.jobs && job !in r.temps && job !in r.approvals)
      && (forall job :: job !in q.running ==>
            SameAt(q.results, r.results, job) && SameAt(q.jobs, r.jobs, job) && SameAt(q.temps, r.temps, job) && (job in q.approvals <==> job in r.approvals))
      && (forall job :: job in r.results && job !in q.results ==> job in q.running && r.results[job] == Outcome(q.running[job].action, Interrupted, report))
      && Recovered(r, report) == r
  {
    var r := Recovered(q, report);
    assert Recovered(r, report).results == r.results;
  }

  lemma SnapshotRecovers(q: State, report: Tree, job: string, tree: Option<Tree>)
    requires job in q.running
    ensures Recovered(SetSnapshot(q, job, tree), report) == Recovered(q, report)
  {
  }

  lemma TempRecovers(q: State, report: Tree, job: string, tree: Option<Tree>)
    requires job in q.running
    ensures Recovered(SetTemp(q, job, tree), report) == Recovered(q, report)
  {
  }

  lemma PublishRecovers(q: State, report: Tree, job: string)
    requires job in q.running && job !in q.results && job in q.temps && q.temps[job] == report
    ensures Recovered(Publish(q, job, q.running[job].action, Interrupted), report) == Recovered(q, report)
  {
  }

  lemma ConsumeRecovers(q: State, report: Tree, job: string)
    requires job in q.running
    ensures Recovered(Disapprove(q, job), report) == Recovered(q, report)
  {
  }

  lemma RetireRecovers(q: State, report: Tree, job: string)
    requires job in q.running && job in q.results && job !in q.jobs && job !in q.temps && job !in q.approvals
    ensures Recovered(RetireRunning(q, job), report) == Recovered(q, report)
  {
    var a, b := Recovered(RetireRunning(q, job), report), Recovered(q, report);
    assert a.results == b.results;
    assert a.jobs == b.jobs && a.temps == b.temps && a.approvals == b.approvals;
  }

  // Denial.

  /** Finishing needs room and no leftover staging directory. */
  lemma FinishSucceedsIff(q: State, reservable: bool, job: string, action: string, status: Status, report: Tree, k: nat)
    requires k >= 3 && job !in q.results
    ensures Finished(q, reservable, job, action, status, report, k).1 <==> reservable && job !in q.temps
  {
  }

  /** What a finish that succeeds leaves: the job's result as given, its storage
      reserved, and everything else as it was. */
  lemma FinishRecords(q: State, job: string, action: string, status: Status, report: Tree, k: nat)
    requires k >= 3 && job !in q.results && job !in q.temps
    ensures var q' := Finished(q, true, job, action, status, report, k).0;
      && q'.results == q.results[job := Outcome(action, status, report)] && q'.temps == q.temps
      && q'.reservations == (if job in q.running then q.reservations else q.reservations + {job})
      && q'.pending == q.pending && q'.running == q.running && q'.jobs == q.jobs && q'.approvals == q.approvals
  {
    StagedIsPublished(if job in q.running then q else Reserve(q, job), job, action, status, report);
    hide SetTemp, Publish;
  }

  lemma StagedIsPublished(q: State, job: string, action: string, status: Status, report: Tree)
    requires job !in q.temps
    ensures var staged := SetTemp(q, job, Some(report));
      job in staged.temps && Publish(staged, job, action, status) == q.(results := q.results[job := Outcome(action, status, report)])
  {
    assert q.temps[job := report] - {job} == q.temps;
  }

  /** What can follow an interrupted finish: more of them, each itself interrupted
      anywhere or not, and recoveries. */
  datatype Retry =
    | Finishing(reservable: bool, action: string, status: Status, report: Tree, k: nat)
    | Recovering(report: Tree)

  function Retried(q: State, job: string, r: Retry): State {
    match r
    case Finishing(reservable, action, status, report, k) => Finished(q, reservable, job, action, status, report, k).0
    case Recovering(report) => Recovered(q, report)
  }

  function RetriedAll(q: State, job: string, retries: seq<Retry>): State {
    if retries == [] then q
    else Retried(RetriedAll(q, job, retries[..|retries| - 1]), job, retries[|retries| - 1])
  }

  /** Waiting with leftover staging, and without a result. */
  predicate Stuck(q: State, job: string) {
    job in q.pending && job !in q.running && job in q.temps && job !in q.results
  }

  lemma {:induction false} StuckStays(q: State, job: string, retries: seq<Retry>)
    requires Stuck(q, job)
    ensures Stuck(RetriedAll(q, job, retries), job)
  {
    if retries != [] {
      StuckStays(q, job, retries[..|retries| - 1]);
    }
  }

  /** A finish interrupted between creating its staging directory and publishing
      it is never completed, whatever is retried and recovered afterwards: the
      staging is in the way, and recovery removes that of running claims only. */
  lemma InterruptedFinishSticks(q: State, job: string, action: string, status: Status, report: Tree, retries: seq<Retry>)
    requires job in q.pending && job !in q.running && job !in q.temps && job !in q.results
    ensures var later := RetriedAll(Finished(q, true, job, action, status, report, 2).0, job, retries);
      && job in later.pending && job in later.temps && job !in later.results
      && forall r: Retry :: r.Finishing? ==> !Finished(later, r.reservable, job, r.action, r.status, r.report, r.k).1
  {
    StuckStays(Finished(q, true, job, action, status, report, 2).0, job, retries);
  }
}
