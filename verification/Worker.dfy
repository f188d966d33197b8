/** The worker's queue directories as the methods that change them. `calls` is how
    many more changes reach the disk before the process dies or the disk fails. */
module Worker {
  import opened Wrappers
  import opened Totals
  import opened Trees
  import opened Retained
  import opened Queue
  import opened QueueRuns
  import opened QueueTheorems

  /** A directory's names, in some order. */
  method ListNames(names: set<string>) returns (listing: seq<string>)
    ensures forall n :: n in listing <==> n in names
    ensures forall i, j :: 0 <= i < j < |listing| ==> listing[i] != listing[j]
  {
    var left := names;
    listing := [];
    while left != {}
      invariant left <= names && forall n :: n in listing <==> n in names && n !in left
      invariant forall i, j :: 0 <= i < j < |listing| ==> listing[i] != listing[j]
      decreases |left|
    {
      var n :| n in left;
      listing, left := listing + [n], left - {n};
    }
  }

  lemma ListsAll(s: Store, running: seq<string>, results: seq<string>, temps: seq<string>, jobs: seq<string>, listing: seq<Entry>)
    requires |listing| == |running| + |results| + |temps| + |jobs|
    requires forall i :: 0 <= i < |running| ==> listing[i] == Entry.Claim(running[i])
    requires forall i :: 0 <= i < |results| ==> listing[|running| + i] == Final(results[i])
    requires forall i :: 0 <= i < |temps| ==> listing[|running| + |results| + i] == Staged(temps[i])
    requires forall i :: 0 <= i < |jobs| ==> listing[|running| + |results| + |temps| + i] == Snapshot(jobs[i])
    requires (forall n :: n in running <==> n in s.running) && (forall n :: n in results <==> n in s.results)
    requires (forall n :: n in temps <==> n in s.temps) && (forall n :: n in jobs <==> n in s.jobs)
    ensures forall e :: e in listing <==> Exists(s, e)
  {
    forall e | Exists(s, e)
      ensures e in listing
    {
      match e
      case Claim(n) =>
        var i :| 0 <= i < |running| && running[i] == n;
        assert listing[i] == e;
      case Final(n) =>
        var i :| 0 <= i < |results| && results[i] == n;
        assert listing[|running| + i] == e;
      case Staged(n) =>
        var i :| 0 <= i < |temps| && temps[i] == n;
        assert listing[|running| + |results| + i] == e;
      case Snapshot(n) =>
        var i :| 0 <= i < |jobs| && jobs[i] == n;
        assert listing[|running| + |results| + |temps| + i] == e;
    }
    forall i | 0 <= i < |listing|
      ensures Exists(s, listing[i])
    {
      var a, b, c := |running|, |running| + |results|, |running| + |results| + |temps|;
      if i < a {
        assert running[i] in s.running;
      } else if i < b {
        assert listing[a + (i - a)] == Final(results[i - a]) && results[i - a] in s.results;
      } else if i < c {
        assert listing[b + (i - b)] == Staged(temps[i - b]) && temps[i - b] in s.temps;
      } else {
        assert listing[c + (i - c)] == Snapshot(jobs[i - c]) && jobs[i - c] in s.jobs;
      }
    }
  }

  /** The directories as the allocator visits them. */
  method ListStore(s: Store) returns (listing: seq<Entry>)
    ensures Lists(s, listing)
  {
    var running := ListNames(s.running.Keys);
    var results := ListNames(s.results.Keys);
    var temps := ListNames(s.temps.Keys);
    var jobs := ListNames(s.jobs.Keys);
    listing := seq(|running|, i requires 0 <= i < |running| => Entry.Claim(running[i]))
             + seq(|results|, i requires 0 <= i < |results| => Final(results[i]))
             + seq(|temps|, i requires 0 <= i < |temps| => Staged(temps[i]))
             + seq(|jobs|, i requires 0 <= i < |jobs| => Snapshot(jobs[i]));
    ListsAll(s, running, results, temps, jobs, listing);
  }

  // Recovery's own steps keep what every run keeps.

  /** The report of a job that did not run fits the slack of its budget. */
  ghost predicate ReportFits(cfg: Config, report: Tree) {
    report.Folder? && Allowed(report, 0, false) && Bytes(report) <= Full(cfg).bytes && Entries(report) <= Full(cfg).entries
  }

  lemma ShrunkSafe(cfg: Config, h: Holding)
    requires HoldingSafe(cfg, h)
    ensures HoldingSafe(cfg, h.(snapshot := None)) && HoldingSafe(cfg, h.(temp := None))
  {
  }

  lemma ReportSafe(cfg: Config, h: Holding, report: Tree)
    requires HoldingSafe(cfg, h) && h.result.None? && h.snapshot.None? && ReportFits(cfg, report)
    ensures HoldingSafe(cfg, h.(temp := Some(report)))
  {
  }

  /** What a running job may come to hold. */
  lemma RunningHolds(cfg: Config, q: State, job: string)
    requires Accepts(cfg, StoreOf(q)) && job in q.running
    ensures job in q.reservations && HoldingSafe(cfg, Held(StoreOf(q), job))
  {
    ResultsReserved(cfg, q, job);
    AcceptedIsSafe(cfg, StoreOf(q), job);
    HeldSafe(cfg, StoreOf(q), job);
  }

  lemma RemoveSnapshotAccepted(cfg: Config, q: State, job: string)
    requires Accepts(cfg, StoreOf(q)) && job in q.running
    ensures Accepts(cfg, StoreOf(SetSnapshot(q, job, None)))
  {
    RunningHolds(cfg, q, job);
    ShrunkSafe(cfg, Held(StoreOf(q), job));
    SnapshotStore(q, job, None);
    WhileRunning(cfg, StoreOf(q), job, Held(StoreOf(q), job).(snapshot := None));
  }

  lemma RemoveTempAccepted(cfg: Config, q: State, job: string)
    requires Accepts(cfg, StoreOf(q)) && job in q.running
    ensures Accepts(cfg, StoreOf(SetTemp(q, job, None)))
  {
    RunningHolds(cfg, q, job);
    ShrunkSafe(cfg, Held(StoreOf(q), job));
    TempStore(q, job, None);
    WhileRunning(cfg, StoreOf(q), job, Held(StoreOf(q), job).(temp := None));
  }

  lemma ReportAccepted(cfg: Config, q: State, job: string, report: Tree)
    requires Accepts(cfg, StoreOf(q)) && job in q.running && job !in q.results && job !in q.jobs && ReportFits(cfg, report)
    ensures Accepts(cfg, StoreOf(SetTemp(q, job, Some(report))))
  {
    RunningHolds(cfg, q, job);
    ReportSafe(cfg, Held(StoreOf(q), job), report);
    TempStore(q, job, Some(report));
    WhileRunning(cfg, StoreOf(q), job, Held(StoreOf(q), job).(temp := Some(report)));
  }

  lemma RemoveSnapshotOrderly(cfg: Config, q: State, job: string)
    requires Orderly(cfg, q) && job in q.running
    ensures Orderly(cfg, SetSnapshot(q, job, None))
  {
    RemoveSnapshotAccepted(cfg, q, job);
  }

  lemma RemoveTempOrderly(cfg: Config, q: State, job: string)
    requires Orderly(cfg, q) && job in q.running
    ensures Orderly(cfg, SetTemp(q, job, None))
  {
    RemoveTempAccepted(cfg, q, job);
  }

  lemma PublishOrderly(cfg: Config, q: State, job: string)
    requires Orderly(cfg, q) && job in q.running && job in q.temps && job !in q.results
    ensures Orderly(cfg, Publish(q, job, q.running[job].action, Interrupted))
  {
    PublishingKept(cfg, q, job, q.running[job].action, Interrupted);
    PublishConsistent(cfg, q, job, Interrupted);
  }

  /** An orderly queue never refuses the reservation of a running claim, and
      stays orderly with the report that ends it. */
  lemma ReportOrderly(cfg: Config, q: State, job: string, report: Tree)
    requires Orderly(cfg, q) && ReportFits(cfg, report) && job in q.running && job !in q.results && job !in q.jobs
    ensures CanReserve(cfg, q, job) && Orderly(cfg, SetTemp(q, job, Some(report)))
  {
    ReportAccepted(cfg, q, job, report);
  }

  lemma ConsumeOrderly(cfg: Config, q: State, job: string)
    requires Orderly(cfg, q)
    ensures Orderly(cfg, Disapprove(q, job))
  {
    assert StoreOf(Disapprove(q, job)) == StoreOf(q);
  }

  lemma RetireOrderly(cfg: Config, q: State, job: string)
    requires Orderly(cfg, q) && job in q.running
    ensures Orderly(cfg, RetireRunning(q, job))
  {
    RetiringKept(cfg, q, job);
  }

  /** What an interrupted recovery has kept: recovery from here ends where it
      would have ended, nothing went back to the queue and no result changed. */
  ghost predicate Resumes(report: Tree, was: State, q: State) {
    && Recovered(q, report) == Recovered(was, report)
    && q.pending == was.pending && q.reservations == was.reservations && Extends(was, q)
  }

  lemma ReportResumes(report: Tree, was: State, q: State, job: string)
    requires Resumes(report, was, q) && job in q.running && job !in q.results
    ensures var r := SetTemp(q, job, Some(report));
      Resumes(report, was, r) && Resumes(report, was, Publish(r, job, q.running[job].action, Interrupted))
  {
    var r := SetTemp(q, job, Some(report));
    TempRecovers(q, report, job, Some(report));
    PublishRecovers(r, report, job);
  }

  lemma RemovalResumes(report: Tree, was: State, q: State, job: string)
    requires Resumes(report, was, q) && job in q.running
    ensures Resumes(report, was, SetSnapshot(q, job, None)) && Resumes(report, was, SetTemp(q, job, None))
  {
    SnapshotRecovers(q, report, job, None);
    TempRecovers(q, report, job, None);
  }

  lemma ConsumeResumes(report: Tree, was: State, q: State, job: string)
    requires Resumes(report, was, q) && job in q.running
    ensures Resumes(report, was, Disapprove(q, job))
  {
    ConsumeRecovers(q, report, job);
  }

  lemma RetireResumes(report: Tree, was: State, q: State, job: string)
    requires Resumes(report, was, q) && job in q.running && job in q.results
    requires job !in q.jobs && job !in q.temps && job !in q.approvals
    ensures Resumes(report, was, RetireRunning(q, job))
  {
    RetireRecovers(q, report, job);
  }

  /** A claim's result is about the claimed request. */
  lemma ClaimIsTerminal(cfg: Config, q: State, job: string)
    requires Orderly(cfg, q) && job in q.running
    ensures Terminal(q, job, q.running[job]) == Ok(job in q.results)
  {
  }

  class Worker {
    const cfg: Config
    const report: Tree
    var q: State
    var calls: nat

    constructor (cfg: Config, report: Tree, q: State, calls: nat)
      ensures this.cfg == cfg && this.report == report && this.q == q && this.calls == calls
    {
      this.cfg, this.report, this.q, this.calls := cfg, report, q, calls;
    }

    /** Carry out one change, if it still reaches the disk. */
    method Change(next: State) returns (ok: bool)
      modifies this
      ensures ok <==> old(calls) > 0
      ensures calls == if ok then old(calls) - 1 else 0
      ensures q == if ok then next else old(q)
    {
      ok := calls > 0;
      if ok {
        q, calls := next, calls - 1;
      }
    }

    /** Whether storage can be reserved for the job, from a scan of everything
        retained. */
    method Reservable(job: string) returns (ok: bool)
      ensures ok <==> CanReserve(cfg, q, job)
    {
      var s := StoreOf(q);
      var listing := ListStore(s);
      var usage := CheckRetained(cfg, s, listing);
      if usage.None? {
        return false;
      }
      if job in usage.value.running {
        return true;
      }
      var full := Full(cfg);
      return && usage.value.results < cfg.maxResults
             && full.bytes <= cfg.maxBytes - usage.value.bytes && full.entries <= cfg.maxEntries - usage.value.entries
             && (job in usage.value.receipts || |usage.value.receipts| < 4096);
    }

    /** Publish a result for a job that does not run. */
    method FinishWithoutRun(job: string, action: string, status: Status) returns (ok: bool)
      modifies this
      ensures (q, ok) == Finished(old(q), CanReserve(cfg, old(q), job), job, action, status, report,
                                  old(calls) + if job in old(q).running then 1 else 0)
      ensures calls + 3 >= old(calls)
      ensures !ok && CanReserve(cfg, old(q), job) && job !in old(q).temps && job !in old(q).results ==> calls == 0
    {
      hide CanReserve;
      var reservable := Reservable(job);
      ok := FinishIf(reservable, job, action, status);
    }

    method FinishIf(reservable: bool, job: string, action: string, status: Status) returns (ok: bool)
      modifies this
      ensures (q, ok) == Finished(old(q), reservable, job, action, status, report, old(calls) + if job in old(q).running then 1 else 0)
      ensures calls + 3 >= old(calls)
      ensures !ok && reservable && job !in old(q).temps && job !in old(q).results ==> calls == 0
    {
      if !reservable {
        return false;
      }
      if job !in q.running {
        ok := Change(Reserve(q, job));
        if !ok {
          return;
        }
      }
      if job in q.temps {
        return false;
      }
      ok := Change(SetTemp(q, job, Some(report)));
      if !ok {
        return;
      }
      if job in q.results {
        return false;
      }
      ok := Change(Publish(q, job, action, status));
    }

    /** What every run keeps, and a report that fits: the queue the worker finds
        unless its state was tampered with. */
    ghost predicate Healthy()
      reads this
    {
      Orderly(cfg, q) && ReportFits(cfg, report)
    }

    /** Remove what an abandoned claim left. */
    method RemoveLeftovers(job: string, ghost was: State) returns (ok: bool)
      requires Resumes(report, was, q) && job in q.running
      modifies this
      ensures Resumes(report, was, q) && (old(Healthy()) ==> Healthy())
      ensures q.running == old(q).running && q.approvals == old(q).approvals && q.results == old(q).results
      ensures if ok then job !in q.jobs && job !in q.temps else calls == 0
      ensures calls + 2 >= old(calls)
    {
      hide Orderly, Resumes, ReportFits;
      ok := true;
      if job in q.jobs {
        if Healthy() {
          RemoveSnapshotOrderly(cfg, q, job);
        }
        RemovalResumes(report, was, q, job);
        ok := Change(SetSnapshot(q, job, None));
        if !ok {
          return;
        }
      }
      if job in q.temps {
        if Healthy() {
          RemoveTempOrderly(cfg, q, job);
        }
        RemovalResumes(report, was, q, job);
        ok := Change(SetTemp(q, job, None));
      }
    }

    /** Consume the approval and remove the claim of a job with a result. */
    method Retire(job: string, ghost was: State) returns (ok: bool)
      requires Resumes(report, was, q) && job in q.running && job !in q.jobs && job !in q.temps
      modifies this
      ensures Resumes(report, was, q) && (old(Healthy()) ==> Healthy())
      ensures q.running == if ok then old(q).running - {job} else old(q).running
      ensures ok ==> job in old(q).results && old(q).results[job].action == old(q).running[job].action
      ensures Terminal(old(q), job, old(q).running[job]) == Ok(true) ==> ok || calls == 0
      ensures calls + 2 >= old(calls)
    {
      hide Orderly, Resumes, ReportFits;
      if Terminal(q, job, q.running[job]) != Ok(true) {
        return false;
      }
      if job in q.approvals {
        if Healthy() {
          ConsumeOrderly(cfg, q, job);
        }
        ConsumeResumes(report, was, q, job);
        ok := Change(Disapprove(q, job));
        if !ok {
          return;
        }
      }
      if Healthy() {
        RetireOrderly(cfg, q, job);
      }
      RetireResumes(report, was, q, job);
      ok := Change(RetireRunning(q, job));
    }

    /** Publish the report of a claim that left neither trees nor a result. A
        healthy queue never refuses it. */
    method FinishClaim(job: string, ghost was: State) returns (ok: bool)
      requires Resumes(report, was, q)
      requires job in q.running && job !in q.results && job !in q.temps && job !in q.jobs
      modifies this
      ensures Resumes(report, was, q) && q.running == old(q).running && q.jobs == old(q).jobs
      ensures ok ==> job !in q.temps && Terminal(q, job, q.running[job]) == Ok(true)
      ensures old(Healthy()) ==> Healthy() && (ok || calls == 0)
      ensures calls + 3 >= old(calls)
    {
      hide Orderly, Resumes, ReportFits, CanReserve;
      if Healthy() {
        ReportOrderly(cfg, q, job, report);
        PublishOrderly(cfg, SetTemp(q, job, Some(report)), job);
      }
      ReportResumes(report, was, q, job);
      ok := FinishWithoutRun(job, q.running[job].action, Interrupted);
    }

    /** One abandoned claim: never dispatched again, never retired without a
        result, and on a healthy queue given up only when interrupted. */
    method RecoverJob(job: string, ghost was: State) returns (ok: bool)
      requires Resumes(report, was, q) && job in q.running
      modifies this
      ensures Resumes(report, was, q)
      ensures q.running == if ok then old(q).running - {job} else old(q).running
      ensures old(Healthy()) ==> Healthy() && (ok || calls == 0)
      ensures calls + 7 >= old(calls)
    {
      hide Orderly, Resumes, ReportFits;
      ok := RemoveLeftovers(job, was);
      if !ok {
        return;
      }
      if Healthy() {
        ClaimIsTerminal(cfg, q, job);
      }
      var terminal := Terminal(q, job, q.running[job]);
      if terminal.Err? {
        return false;
      }
      if !terminal.value {
        ok := FinishClaim(job, was);
        if !ok {
          return;
        }
      }
      ok := Retire(job, was);
    }

    /** Recover every claim that a previous process left running. On a healthy queue
        it stops only when interrupted, and has then done part of what running it
        again completes; otherwise nothing is left to recover. */
    method Recover() returns (ok: bool)
      modifies this
      ensures Resumes(report, old(q), q)
      ensures ok ==> q == Recovered(old(q), report)
      ensures old(Healthy()) ==> Healthy() && (ok || calls == 0)
      ensures calls + 7 * |old(q).running| >= old(calls)
    {
      hide Orderly, Resumes, ReportFits, Claims, Recovered;
      var listing := ListClaims(q.running);
      NothingDone(q, report);
      assert listing[0..] == listing;
      for i := 0 to |listing|
        invariant Resumes(report, old(q), q) && Claims(q.running, listing[i..])
        invariant old(Healthy()) ==> Healthy()
        invariant calls + 7 * i >= old(calls)
      {
        ClaimsNext(q.running, listing[i..]);
        assert listing[i..][1..] == listing[i + 1..];
        ok := RecoverJob(listing[i], old(q));
        if !ok {
          return;
        }
      }
      RecoveryEnds(q, report, old(q));
      ok := true;
    }
  }

  /** The claims still running, each once. */
  ghost predicate Claims(running: map<string, Request>, listing: seq<string>) {
    && (forall n :: n in listing <==> n in running)
    && (forall i, j :: 0 <= i < j < |listing| ==> listing[i] != listing[j])
  }

  method ListClaims(running: map<string, Request>) returns (listing: seq<string>)
    ensures Claims(running, listing) && |listing| == |running|
  {
    listing := ListNames(running.Keys);
    ClaimsSize(running, listing);
  }

  lemma {:induction false} ClaimsSize(running: map<string, Request>, listing: seq<string>)
    requires Claims(running, listing)
    ensures |listing| == |running|
    decreases |listing|
  {
    if listing == [] {
      assert running == map[];
    } else {
      ClaimsNext(running, listing);
      ClaimsSize(running - {listing[0]}, listing[1..]);
      assert (running - {listing[0]}).Keys == running.Keys - {listing[0]};
      assert |running.Keys| == |running| && |(running - {listing[0]}).Keys| == |running - {listing[0]}|;
    }
  }

  lemma ClaimsNext(running: map<string, Request>, listing: seq<string>)
    requires Claims(running, listing) && listing != []
    ensures listing[0] in running && Claims(running - {listing[0]}, listing[1..])
  {
    assert listing == [listing[0]] + listing[1..];
  }

  lemma NothingDone(q: State, report: Tree)
    ensures Resumes(report, q, q)
  {
  }

  lemma RecoveryEnds(q: State, report: Tree, was: State)
    requires Resumes(report, was, q) && Claims(q.running, [])
    ensures q == Recovered(was, report)
  {
    assert q.running == map[];
    assert Recovered(q, report).results == q.results;
  }

  /** Recovery of whatever any run left: with seven changes for each claim still
      reaching the disk it retires every claim with a result, and with fewer it can
      be run again to the same end. */
  method RecoverReachable(cfg: Config, report: Tree, ghost labels: seq<Label>, q: State, calls: nat) returns (after: State)
    requires q == Run(cfg, labels) && ReportFits(cfg, report)
    ensures calls > 7 * |q.running| ==>
      && after == Recovered(q, report) && after.running == map[] && after.pending == q.pending && Extends(q, after)
      && forall job :: job in q.running ==> job in after.results
    ensures Orderly(cfg, after) && Recovered(after, report) == Recovered(q, report)
  {
    RunKept(cfg, labels);
    RecoveryIsComplete(q, report);
    var w := new Worker(cfg, report, q, calls);
    var _ := w.Recover();
    after := w.q;
  }
}
