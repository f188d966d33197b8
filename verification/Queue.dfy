/** The worker's private queue: requests wait, are claimed, leave one terminal
    result and are retired, with storage reserved before anything runs. Every step
    is one atomic change of the queue's directories. */
module Queue {
  import opened Wrappers
  import opened Totals
  import opened Trees
  import opened Retained

  datatype Request = Request(action: string, size: nat)

  datatype Status = Succeeded | Failed | TimedOut | RuntimeError | Rejected | Denied | Interrupted

  /** A terminal result: what `result.json` says, and the tree that holds it. */
  datatype Outcome = Outcome(action: string, status: Status, tree: Tree)

  datatype State = State(
    reservations: set<string>,
    pending: map<string, Request>,
    running: map<string, Request>,
    results: map<string, Outcome>,
    temps: map<string, Tree>,
    jobs: map<string, Tree>,
    approvals: set<string>)

  const EMPTY: State := State({}, map[], map[], map[], map[], map[], {})

  /** What the allocator sees. */
  function StoreOf(q: State): Store {
    Store(q.reservations,
          map job | job in q.running :: q.running[job].size,
          map job | job in q.results :: q.results[job].tree,
          q.temps, q.jobs)
  }

  /** Ids that may not be used again. */
  predicate JobExists(q: State, job: string) {
    job in q.pending || job in q.running || job in q.approvals || job in q.results || job in q.jobs || job in q.reservations
  }

  /** A terminal result for the request: present, and about the same action. */
  function Terminal(q: State, job: string, r: Request): Result<bool, ()> {
    if job !in q.results then Ok(false)
    else if q.results[job].action == r.action then Ok(true)
    else Err(())
  }

  /** Whether storage can be reserved for the job. */
  ghost predicate CanReserve(cfg: Config, q: State, job: string) {
    Accepts(cfg, StoreOf(q)) && (job in q.running || Room(cfg, StoreOf(q), job))
  }

  // The atomic changes.

  function Reserve(q: State, job: string): State {
    q.(reservations := q.reservations + {job})
  }

  function Start(q: State, job: string): State
    requires job in q.pending
  {
    q.(pending := q.pending - {job}, running := q.running[job := q.pending[job]])
  }

  function SetTemp(q: State, job: string, tree: Option<Tree>): State {
    q.(temps := if tree.Some? then q.temps[job := tree.value] else q.temps - {job})
  }

  function SetSnapshot(q: State, job: string, tree: Option<Tree>): State {
    q.(jobs := if tree.Some? then q.jobs[job := tree.value] else q.jobs - {job})
  }

  /** Rename the staging directory to the result. */
  function Publish(q: State, job: string, action: string, status: Status): State
    requires job in q.temps
  {
    q.(temps := q.temps - {job}, results := q.results[job := Outcome(action, status, q.temps[job])])
  }

  function Disapprove(q: State, job: string): State {
    q.(approvals := q.approvals - {job})
  }

  function RetireRunning(q: State, job: string): State {
    q.(running := q.running - {job})
  }

  function RetirePending(q: State, job: string): State {
    q.(pending := q.pending - {job})
  }

  // Runs.

  datatype Label =
    | Ingesting(job: string, request: Request)
    | Approving(job: string)
    | Reserving(job: string)
    | Claiming(job: string)
    | Snapshotting(job: string, tree: Option<Tree>)
    | Staging(job: string, tree: Option<Tree>)
    | Publishing(job: string, status: Status)
    | Consuming(job: string)
    | Retiring(job: string)

  /** When each step may happen. Producers keep a job's trees within its budget;
      a pending job gets a result only after its storage could be reserved. */
  ghost predicate Enabled(cfg: Config, q: State, l: Label) {
    match l
    case Ingesting(job, r) => !JobExists(q, job) && r.size <= cfg.maxRequestBytes
    case Approving(job) => job in q.pending
    case Reserving(job) => CanReserve(cfg, q, job)
    case Claiming(job) =>
      job in q.pending && job !in q.running && job !in q.results && CanReserve(cfg, q, job) && job in q.reservations
    case Snapshotting(job, tree) => job in q.running && JobSafe(cfg, StoreOf(SetSnapshot(q, job, tree)), job)
    case Staging(job, tree) =>
      && JobSafe(cfg, StoreOf(SetTemp(q, job, tree)), job)
      && (job in q.running || (job in q.pending && job !in q.temps && CanReserve(cfg, q, job) && job in q.reservations))
    case Publishing(job, _) => job in q.temps && job !in q.results && (job in q.running || job in q.pending)
    case Consuming(job) => job in q.results
    case Retiring(job) =>
      job in q.results && (job in q.running || job in q.pending)
  }

  function RequestOf(q: State, job: string): Request
    requires job in q.running || job in q.pending
  {
    if job in q.running then q.running[job] else q.pending[job]
  }

  ghost function Apply(cfg: Config, q: State, l: Label): State {
    if !Enabled(cfg, q, l) then q
    else
      match l
      case Ingesting(job, r) => q.(pending := q.pending[job := r])
      case Approving(job) => q.(approvals := q.approvals + {job})
      case Reserving(job) => Reserve(q, job)
      case Claiming(job) => Start(q, job)
      case Snapshotting(job, tree) => SetSnapshot(q, job, tree)
      case Staging(job, tree) => SetTemp(q, job, tree)
      case Publishing(job, status) => Publish(q, job, RequestOf(q, job).action, status)
      case Consuming(job) => Disapprove(q, job)
      case Retiring(job) => if job in q.running then RetireRunning(q, job) else RetirePending(q, job)
  }

  ghost function Run(cfg: Config, labels: seq<Label>): State {
    if labels == [] then EMPTY else Apply(cfg, Run(cfg, labels[..|labels| - 1]), labels[|labels| - 1])
  }

  // Finishing and recovery.

  /** Publish a result without running the job, interrupted after `k` steps:
      reserve if that is possible, create the staging directory with its report,
      publish. */
  function Finished(q: State, reservable: bool, job: string, action: string, status: Status, report: Tree, k: nat): (State, bool) {
    if !reservable || k == 0 then (q, false)
    else
      var q := if job in q.running then q else Reserve(q, job);
      if k == 1 || job in q.temps then (q, false)
      else
        var q := SetTemp(q, job, Some(report));
        if k == 2 || job in q.results then (q, false) else (Publish(q, job, action, status), true)
  }

  /** Every running claim retired with a terminal result, its own or `Interrupted`,
      and nothing of it left but that. */
  function Recovered(q: State, report: Tree): State {
    var claimed := q.running.Keys;
    q.(running := map[],
       jobs := q.jobs - claimed,
       temps := q.temps - claimed,
       approvals := q.approvals - claimed,
       results := map job | job in q.results.Keys + claimed ::
         if job in q.results then q.results[job] else Outcome(q.running[job].action, Interrupted, report))
  }
}
