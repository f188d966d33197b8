/** The strict budget ledger: the persisted record, the crash-safe replacement of
    its file, and what each critical section of the broker's `Limits` computes.

    The record's checksum is not a field: every writer stamps it and the model
    has no writer that does not, so it adds nothing to a record's value. */
module Ledger {
  import opened Wrappers

  const SECONDS_PER_DAY: nat := 86_400

  datatype Budget = Budget(
    day: U64,
    requests: U64,
    tokens: U64,
    cost: U64,
    lastSeen: Option<U64>,
    unsettled: Option<U64>,
    pending: Option<U64>)

  datatype Rate = Rate(window: U64, requests: U64)

  datatype Config = Config(
    windowSeconds: U64,
    maxPerWindow: U64,
    dailyRequests: U64,
    dailyTokens: U64,
    dailyCost: U64)
  {
    /** Broker configuration is refused unless every limit is positive. */
    predicate Valid() {
      windowSeconds > 0 && maxPerWindow > 0 && dailyRequests > 0 && dailyTokens > 0 && dailyCost > 0
    }
  }

  /** What the mutex protects, with the two flags read under it. */
  datatype Mem = Mem(
    budget: Budget,
    rate: Rate,
    active: U64,
    persistenceFailed: bool,
    overagePending: bool)

  /** `file` is what a reader sees; `durable` is what a power loss leaves behind. */
  datatype Disk = Disk(file: Budget, durable: Budget)

  /** What the environment supplies to one critical section. */
  datatype Env = Env(now: U64, owned: bool, fate: Fate)

  datatype Failure =
    | PersistenceFailed | OverageInProgress | NotOwner | Unreadable | Changed
    | InvalidCheckpoint | ClockRollback | UnresolvedUsage | UsageBlocksDay
    | UnsettledBlocksDay | RateLimited | BudgetExceeded | MissingUnsettled
    | TooManyPending | AlreadySettled | IoError

  datatype Outcome = Granted | Refused(why: Failure)

  /** The state a critical section leaves behind, and what its caller is told. */
  datatype Locked = Locked(mem: Mem, disk: Disk, outcome: Outcome)

  function Count(n: Option<U64>): U64 {
    if n.Some? then n.value else 0
  }

  function DayOf(now: U64): U64 {
    now / SECONDS_PER_DAY
  }

  predicate Exhausted(b: Budget) {
    b.tokens == U64_MAX && b.cost == U64_MAX
  }

  /** The checks a strict reader applies to a record before trusting it. */
  predicate Readable(b: Budget) {
    && b.lastSeen.Some?
    && b.unsettled.Some?
    && (b.requests == 0 ==> b.tokens == 0 && b.cost == 0)
    && (b.requests != 0 ==> b.tokens != 0 && b.cost != 0)
    && b.unsettled.value <= b.requests
    && (b.pending.Some? ==> 0 < b.pending.value <= b.requests)
  }

  function CheckClock(b: Budget, now: U64): Outcome {
    if b.lastSeen.None? || b.lastSeen.value == 0 || b.day > DayOf(b.lastSeen.value) then
      Refused(InvalidCheckpoint)
    else if now < b.lastSeen.value then
      Refused(ClockRollback)
    else
      Granted
  }

  /** Ownership, a readable file equal to the broker's own copy, and the clock. */
  function Verify(b: Budget, d: Disk, env: Env): Outcome {
    if !env.owned then Refused(NotOwner)
    else if !Readable(d.file) then Refused(Unreadable)
    else if d.file != b then Refused(Changed)
    else CheckClock(b, env.now)
  }

  function Replace(d: Disk, b: Budget, fate: Fate): Disk {
    match fate
    case Kept => d
    case Unsynced => d.(file := b)
    case Synced => Disk(b, b)
  }

  /** Move the clock checkpoint forward, then report `why`. A failed checkpoint is
      reported instead and does not set the persistence flag. */
  function Checkpointed(m: Mem, d: Disk, env: Env, why: Failure): Locked {
    if m.budget.lastSeen == Some(env.now) then
      Locked(m, d, Refused(why))
    else
      var b := m.budget.(lastSeen := Some(env.now));
      if env.fate == Synced then Locked(m.(budget := b), Replace(d, b, env.fate), Refused(why))
      else Locked(m, Replace(d, b, env.fate), Refused(IoError))
  }

  /** Persist `b`; on success the broker's copy becomes `m'.(budget := b)`, on
      failure `m` stays and every later admission is refused. */
  function Committed(m: Mem, m': Mem, d: Disk, b: Budget, env: Env): Locked {
    if env.fate == Synced then
      Locked(m'.(budget := b), Replace(d, b, env.fate), Granted)
    else
      Locked(m.(persistenceFailed := true), Replace(d, b, env.fate), Refused(IoError))
  }

  /** The record an admission starts from: the current one, or a fresh one when
      the UTC day moved. */
  function Opened(b: Budget, day: U64): Budget {
    if b.day == day then b
    else Budget(day, 0, 0, 0, None, Some(0), None)
  }

  function Windowed(r: Rate, window: U64): Rate {
    if r.window == window then r else Rate(window, 0)
  }

  predicate WithinBudget(cfg: Config, b: Budget, tokens: U64, cost: U64) {
    && b.requests + 1 <= cfg.dailyRequests
    && b.tokens + tokens <= cfg.dailyTokens
    && b.cost + cost <= cfg.dailyCost
  }

  /** `b` with one more reservation on it, tracked when `track`. */
  function Charged(b: Budget, tokens: U64, cost: U64, track: bool, now: U64): Budget
    requires b.requests < U64_MAX && b.tokens + tokens <= U64_MAX && b.cost + cost <= U64_MAX
    requires Count(b.unsettled) < U64_MAX && (track ==> Count(b.pending) < U64_MAX)
  {
    Budget(b.day, b.requests + 1, b.tokens + tokens, b.cost + cost,
           Some(now), Some(Count(b.unsettled) + 1),
           if track then Some(Count(b.pending) + 1) else b.pending)
  }

  /** Admission: one reservation of `tokens` and `cost`, for a model call (with a
      usage guard) when `track`. */
  function Reserve(cfg: Config, m: Mem, d: Disk, tokens: U64, cost: U64, track: bool, env: Env): Locked
    requires cfg.Valid()
  {
    if m.persistenceFailed then Locked(m, d, Refused(PersistenceFailed))
    else if m.overagePending then Locked(m, d, Refused(OverageInProgress))
    else if Verify(m.budget, d, env) != Granted then Locked(m, d, Verify(m.budget, d, env))
    else if Count(m.budget.pending) > m.active then Checkpointed(m, d, env, UnresolvedUsage)
    else if m.budget.day != DayOf(env.now) && m.budget.pending.Some? then
      Checkpointed(m, d, env, UsageBlocksDay)
    else if m.budget.day != DayOf(env.now) && m.budget.unsettled != Some(0) then
      Checkpointed(m, d, env, UnsettledBlocksDay)
    else
      var b := Opened(m.budget, DayOf(env.now));
      var rate := Windowed(m.rate, env.now / cfg.windowSeconds);
      if rate.requests >= cfg.maxPerWindow then Checkpointed(m, d, env, RateLimited)
      else if !WithinBudget(cfg, b, tokens, cost) then Checkpointed(m, d, env, BudgetExceeded)
      else if b.unsettled.None? then Locked(m, d, Refused(MissingUnsettled))
      else if b.unsettled.value == U64_MAX then Locked(m, d, Refused(BudgetExceeded))
      else if track && (Count(b.pending) == U64_MAX || m.active == U64_MAX) then
        Locked(m, d, Refused(TooManyPending))
      else
        Committed(m,
                  m.(rate := rate.(requests := rate.requests + 1),
                     active := if track then m.active + 1 else m.active),
                  d, Charged(b, tokens, cost, track, env.now), env)
  }

  /** Accounting for a reported overage: the day's counters become unreachable. */
  function Exhaust(m: Mem, d: Disk, env: Env): Locked {
    if m.persistenceFailed then Locked(m, d, Refused(PersistenceFailed))
    else if Verify(m.budget, d, env) != Granted then Locked(m, d, Verify(m.budget, d, env))
    else if Exhausted(m.budget) then Locked(m, d, Granted)
    else Committed(m, m, d, m.budget.(tokens := U64_MAX, cost := U64_MAX, lastSeen := Some(env.now)), env)
  }

  /** A usage guard going away; `clear` when it holds no unaccounted overage. */
  function Release(m: Mem, d: Disk, clear: bool, env: Env): Locked {
    var m := m.(active := if m.active == 0 then 0 else m.active - 1);
    if !clear then Locked(m, d, Granted)
    else if m.persistenceFailed then Locked(m, d, Refused(PersistenceFailed))
    else if Verify(m.budget, d, env) != Granted then Locked(m, d, Verify(m.budget, d, env))
    else if Count(m.budget.pending) == 0 then Locked(m, d, Granted)
    else
      var left := m.budget.pending.value - 1;
      Committed(m, m, d, m.budget.(pending := if left == 0 then None else Some(left), lastSeen := Some(env.now)), env)
  }

  /** One reservation's outcome became known. */
  function Settle(m: Mem, d: Disk, env: Env): Locked {
    if Verify(m.budget, d, env) != Granted then Locked(m, d, Verify(m.budget, d, env))
    else if m.budget.unsettled.None? then Locked(m, d, Refused(MissingUnsettled))
    else if m.budget.unsettled.value == 0 then Locked(m, d, Refused(AlreadySettled))
    else Committed(m, m, d, m.budget.(unsettled := Some(m.budget.unsettled.value - 1), lastSeen := Some(env.now)), env)
  }

  /** A broker starting up: the record it trusts, if it may start at all. */
  function Load(d: Disk, env: Env): (Option<Mem>, Disk) {
    if !env.owned || !Readable(d.file) || CheckClock(d.file, env.now) != Granted then (None, d)
    else
      var m := Mem(d.file, Rate(0, 0), 0, false, false);
      if d.file.lastSeen == Some(env.now) then (Some(m), d)
      else
        var b := d.file.(lastSeen := Some(env.now));
        (if env.fate == Synced then Some(m.(budget := b)) else None, Replace(d, b, env.fate))
  }

  /** Operator recovery with the broker stopped: holds are cleared, charges stay. */
  function Reconcile(d: Disk, env: Env): (Outcome, Disk) {
    if !env.owned then (Refused(NotOwner), d)
    else if !Readable(d.file) then (Refused(Unreadable), d)
    else if CheckClock(d.file, env.now) != Granted then (CheckClock(d.file, env.now), d)
    else
      var b := d.file.(unsettled := Some(0), pending := None, lastSeen := Some(env.now));
      (if env.fate == Synced then Granted else Refused(IoError), Replace(d, b, env.fate))
  }

  /** The record provisioning writes, once, before any broker may start. */
  function Initial(now: U64): Budget {
    Budget(DayOf(now), 0, 0, 0, Some(now), Some(0), None)
  }
}
