/** Whole runs of the strict ledger: brokers that start, crash and restart, many
    callers holding reservations and usage guards, overage observers interleaved
    at every atomic step, persists that fail on either side of the exchange,
    power losses and operator reconciliation, under arbitrary clock readings. */
module LedgerRuns {
  import opened Wrappers
  import opened Ledger

  /** A reservation is named by its position in the admission log; the usage
      guard that came with it has the same name. */
  type Id = nat

  datatype Admission = Admission(day: U64, tokens: U64, cost: U64)

  /** Where a guard's owner stands inside `observe`. `Idle` is outside it. */
  datatype Phase = Idle | Flagged | Waiting | Exhausting | Clearing

  datatype Guard = Guard(tokens: U64, cost: U64, phase: Phase, failed: bool)

  /** A running broker: its memory and the capabilities its callers hold. */
  datatype Process = Process(mem: Mem, reservations: map<Id, bool>, guards: map<Id, Guard>)

  /** The disk and the broker, followed by what an outside observer remembers:
      - `log`: every reservation whose caller was told it succeeded;
      - `outstanding`: of those, the ones no record ever counted as settled;
      - `unreleased`: guards whose release no record ever counted;
      - `raisers`: guards that reported an overage since the ledger last opened a
        day or was reconciled;
      - `exact`: no reservation was recorded without its caller being told, and
        no power loss undid a replacement. */
  datatype World = World(
    disk: Disk,
    broker: Option<Process>,
    log: seq<Admission>,
    outstanding: set<Id>,
    unreleased: set<Id>,
    raisers: set<Id>,
    exact: bool)

  datatype Label =
    | Reserving(tokens: U64, cost: U64, track: bool, env: Env)
    | Dispatching(id: Id)
    | Settling(id: Id, env: Env)
    | DroppingReservation(id: Id, env: Env)
    | RaisingFlag(id: Id, usedTokens: U64, usedCost: Option<U64>)
    | MarkingFailed(id: Id)
    | ExhaustingDay(id: Id, env: Env)
    | UnmarkingFailed(id: Id)
    | LoweringFlag(id: Id)
    | DroppingGuard(id: Id, env: Env)
    | Crashing
    | LosingPower
    | Flushing
    | Starting(env: Env)
    | Reconciling(env: Env)

  function Start(now: U64): World {
    World(Disk(Initial(now), Initial(now)), None, [], {}, {}, {}, true)
  }

  function ApplyReserve(cfg: Config, w: World, p: Process, l: Label): World
    requires cfg.Valid() && l.Reserving?
  {
    var r := Reserve(cfg, p.mem, w.disk, l.tokens, l.cost, l.track, l.env);
    var opensDay := r.disk.file.day != w.disk.file.day;
    var raisers := if opensDay then {} else w.raisers;
    if r.outcome == Granted then
      var id := |w.log|;
      World(r.disk,
            Some(Process(r.mem, p.reservations[id := false],
                         if l.track then p.guards[id := Guard(l.tokens, l.cost, Idle, false)] else p.guards)),
            w.log + [Admission(r.disk.file.day, l.tokens, l.cost)],
            w.outstanding + {id},
            if l.track then w.unreleased + {id} else w.unreleased,
            raisers, w.exact)
    else
      w.(disk := r.disk, broker := Some(p.(mem := r.mem)), raisers := raisers,
         exact := w.exact && r.disk.file.requests == w.disk.file.requests && !opensDay)
  }

  /** The capability is consumed whatever happens; the reservation stops being
      outstanding exactly when a record that no longer counts it replaced the file. */
  function ApplySettle(w: World, p: Process, id: Id, env: Env): World {
    var r := Settle(p.mem, w.disk, env);
    w.(disk := r.disk,
       broker := Some(p.(mem := r.mem, reservations := p.reservations - {id})),
       outstanding := if r.disk.file != w.disk.file then w.outstanding - {id} else w.outstanding)
  }

  function ApplyExhaust(w: World, p: Process, id: Id, env: Env): World
    requires id in p.guards
  {
    var r := Exhaust(p.mem, w.disk, env);
    var g := p.guards[id].(phase := if r.outcome == Granted then Exhausting else Idle);
    w.(disk := r.disk, broker := Some(p.(mem := r.mem, guards := p.guards[id := g])))
  }

  function ApplyRelease(w: World, p: Process, id: Id, env: Env): World
    requires id in p.guards
  {
    var r := Release(p.mem, w.disk, !p.guards[id].failed, env);
    w.(disk := r.disk,
       broker := Some(p.(mem := r.mem, guards := p.guards - {id})),
       unreleased := if r.disk.file != w.disk.file then w.unreleased - {id} else w.unreleased)
  }

  predicate Overage(g: Guard, usedTokens: U64, usedCost: Option<U64>) {
    usedTokens > g.tokens || usedCost.None? || usedCost.value > g.cost
  }

  function WithGuard(w: World, p: Process, id: Id, g: Guard): World {
    w.(broker := Some(p.(guards := p.guards[id := g])))
  }

  /** One atomic step of a running broker's callers. A label that is not enabled
      changes nothing. */
  function ApplyLive(cfg: Config, w: World, p: Process, l: Label): World
    requires cfg.Valid() && w.broker == Some(p)
  {
    match l
    case Reserving(_, _, _, _) => ApplyReserve(cfg, w, p, l)
    case Dispatching(id) =>
      if id in p.reservations then w.(broker := Some(p.(reservations := p.reservations[id := true]))) else w
    case Settling(id, env) =>
      if id in p.reservations then ApplySettle(w, p, id, env) else w
    case DroppingReservation(id, env) =>
      if id !in p.reservations then w
      else if p.reservations[id] then w.(broker := Some(p.(reservations := p.reservations - {id})))
      else ApplySettle(w, p, id, env)
    case RaisingFlag(id, usedTokens, usedCost) =>
      if id in p.guards && p.guards[id].phase == Idle && Overage(p.guards[id], usedTokens, usedCost) then
        var p := p.(mem := p.mem.(overagePending := true));
        WithGuard(w, p, id, p.guards[id].(phase := Flagged)).(raisers := w.raisers + {id})
      else w
    case MarkingFailed(id) =>
      if id in p.guards && p.guards[id].phase == Flagged then
        WithGuard(w, p, id, p.guards[id].(phase := Waiting, failed := true))
      else w
    case ExhaustingDay(id, env) =>
      if id in p.guards && p.guards[id].phase == Waiting then ApplyExhaust(w, p, id, env) else w
    case UnmarkingFailed(id) =>
      if id in p.guards && p.guards[id].phase == Exhausting then
        WithGuard(w, p, id, p.guards[id].(phase := Clearing, failed := false))
      else w
    case LoweringFlag(id) =>
      if id in p.guards && p.guards[id].phase == Clearing then
        WithGuard(w, p.(mem := p.mem.(overagePending := false)), id, p.guards[id].(phase := Idle))
      else w
    case DroppingGuard(id, env) =>
      if id in p.guards && p.guards[id].phase == Idle then ApplyRelease(w, p, id, env) else w
    case Crashing => w.(broker := None)
    case LosingPower => w.(broker := None, disk := Disk(w.disk.durable, w.disk.durable), exact := false)
    case Flushing => w.(disk := Disk(w.disk.file, w.disk.file))
    case Starting(_) => w
    case Reconciling(_) => w
  }

  /** One step while no broker runs: the exclusive lock is free. */
  function ApplyStopped(w: World, l: Label): World {
    match l
    case LosingPower => w.(disk := Disk(w.disk.durable, w.disk.durable), exact := false)
    case Flushing => w.(disk := Disk(w.disk.file, w.disk.file))
    case Starting(env) =>
      var (mem, disk) := Load(w.disk, env);
      w.(disk := disk, broker := if mem.Some? then Some(Process(mem.value, map[], map[])) else None)
    case Reconciling(env) =>
      var (outcome, disk) := Reconcile(w.disk, env);
      if outcome == Granted || disk != w.disk then
        World(disk, None, w.log, {}, {}, {}, true)
      else w
    case _ => w
  }

  function Apply(cfg: Config, w: World, l: Label): World
    requires cfg.Valid()
  {
    if w.broker.Some? then ApplyLive(cfg, w, w.broker.value, l) else ApplyStopped(w, l)
  }

  /** The world after every step of `labels`, in order. */
  function Run(cfg: Config, now: U64, labels: seq<Label>): World
    requires cfg.Valid()
  {
    if labels == [] then Start(now)
    else Apply(cfg, Run(cfg, now, labels[..|labels| - 1]), labels[|labels| - 1])
  }

  // Totals of the admissions of one day.

  function Requests(log: seq<Admission>, day: U64): nat {
    if log == [] then 0
    else Requests(log[..|log| - 1], day) + (if log[|log| - 1].day == day then 1 else 0)
  }

  function Tokens(log: seq<Admission>, day: U64): nat {
    if log == [] then 0
    else Tokens(log[..|log| - 1], day) + (if log[|log| - 1].day == day then log[|log| - 1].tokens else 0)
  }

  function Cost(log: seq<Admission>, day: U64): nat {
    if log == [] then 0
    else Cost(log[..|log| - 1], day) + (if log[|log| - 1].day == day then log[|log| - 1].cost else 0)
  }

  lemma TotalsAppend(log: seq<Admission>, a: Admission, day: U64)
    ensures Requests(log + [a], day) == Requests(log, day) + (if a.day == day then 1 else 0)
    ensures Tokens(log + [a], day) == Tokens(log, day) + (if a.day == day then a.tokens else 0)
    ensures Cost(log + [a], day) == Cost(log, day) + (if a.day == day then a.cost else 0)
  {
    assert (log + [a])[..|log + [a]| - 1] == log;
  }

  lemma TotalsOfUnusedDay(log: seq<Admission>, day: U64)
    requires forall i :: 0 <= i < |log| ==> log[i].day < day
    ensures Requests(log, day) == Tokens(log, day) == Cost(log, day) == 0
  {
  }

  // The invariant, piece by piece.

  /** No admission of a record's day or later is missing from its counters. */
  ghost predicate Covers(r: Budget, log: seq<Admission>) {
    && (forall i :: 0 <= i < |log| ==> log[i].day <= r.day)
    && Requests(log, r.day) <= r.requests
    && Tokens(log, r.day) <= r.tokens
    && Cost(log, r.day) <= r.cost
  }

  /** A record remembers every uncertainty: no possibly dispatched reservation is
      missing from `unsettled`, no guard from `pending`, and an overage whose
      guard is gone has made the day's counters unreachable. */
  ghost predicate Remembers(r: Budget, outstanding: set<Id>, unreleased: set<Id>, raisers: set<Id>) {
    && |outstanding| <= Count(r.unsettled)
    && |unreleased| <= Count(r.pending)
    && (!Exhausted(r) ==> raisers <= unreleased)
  }

  ghost predicate ClockSound(r: Budget) {
    r.lastSeen.Some? && 0 < r.lastSeen.value && r.day <= DayOf(r.lastSeen.value) && r.unsettled.Some?
  }

  ghost predicate WithinDailyBudgets(cfg: Config, log: seq<Admission>) {
    forall day: U64 ::
      && Requests(log, day) <= cfg.dailyRequests
      && Tokens(log, day) <= cfg.dailyTokens
      && Cost(log, day) <= cfg.dailyCost
  }

  /** A broker that has an unaccounted overage, or that once had one and has not
      opened a new day, refuses every positive charge for at least one reason. */
  ghost predicate Held(w: World, p: Process) {
    || p.mem.overagePending
    || p.mem.persistenceFailed
    || w.disk.file != p.mem.budget
    || Exhausted(p.mem.budget)
    || Count(p.mem.budget.pending) > p.mem.active
  }

  ghost predicate GuardSound(w: World, p: Process, id: Id)
    requires id in p.guards
  {
    var g := p.guards[id];
    && (g.phase == Flagged || g.phase == Waiting ==> id in w.raisers)
    && (g.phase == Waiting || g.phase == Exhausting ==> g.failed)
    && (g.phase == Exhausting || g.phase == Clearing ==> Exhausted(w.disk.file) && Exhausted(w.disk.durable))
    && (id in w.raisers && g.phase == Idle && !g.failed ==> Exhausted(w.disk.file) && Exhausted(w.disk.durable))
  }

  ghost predicate BrokerSound(w: World, p: Process) {
    && p.mem.active == |p.guards|
    && p.guards.Keys <= w.unreleased
    && p.reservations.Keys <= w.outstanding
    && (w.disk.file == p.mem.budget && p.guards != map[] ==> w.disk.durable == w.disk.file)
    && (w.raisers != {} ==> Held(w, p))
    && (forall id :: id in p.guards ==> GuardSound(w, p, id))
  }

  ghost predicate RecordSound(r: Budget, w: World) {
    && Covers(r, w.log)
    && Remembers(r, w.outstanding, w.unreleased, w.raisers)
    && ClockSound(r)
  }

  ghost predicate NamesSound(w: World) {
    forall id :: id in w.outstanding || id in w.unreleased || id in w.raisers ==> id < |w.log|
  }

  ghost predicate DiskSound(cfg: Config, w: World) {
    && RecordSound(w.disk.file, w)
    && RecordSound(w.disk.durable, w)
    && w.disk.durable.lastSeen.value <= w.disk.file.lastSeen.value
    && w.disk.durable.day <= w.disk.file.day
    && WithinDailyBudgets(cfg, w.log)
    && NamesSound(w)
    && (w.exact ==> |w.outstanding| == Count(w.disk.file.unsettled) && |w.unreleased| == Count(w.disk.file.pending))
  }

  ghost predicate Sound(cfg: Config, w: World) {
    DiskSound(cfg, w) && (w.broker.Some? ==> BrokerSound(w, w.broker.value))
  }

  // Small facts about counting.

  lemma RemovedKey<V>(m: map<Id, V>, id: Id)
    requires id in m
    ensures |m - {id}| == |m| - 1 && (m - {id}).Keys == m.Keys - {id}
  {
    assert (m - {id}).Keys == m.Keys - {id};
    assert |m.Keys| == |m| && |(m - {id}).Keys| == |m - {id}|;
  }

  lemma AddedKey<V>(m: map<Id, V>, id: Id, v: V)
    requires id !in m
    ensures |m[id := v]| == |m| + 1 && m[id := v].Keys == m.Keys + {id}
  {
    assert m[id := v].Keys == m.Keys + {id};
    assert |m.Keys| == |m| && |m[id := v].Keys| == |m[id := v]|;
  }

  lemma UpdatedKey<V>(m: map<Id, V>, id: Id, v: V)
    requires id in m
    ensures |m[id := v]| == |m| && m[id := v].Keys == m.Keys
  {
    assert m[id := v].Keys == m.Keys;
    assert |m.Keys| == |m| && |m[id := v].Keys| == |m[id := v]|;
  }

  // Each critical section keeps the invariant.

  /** What replacing the file by `b` leaves on disk when it took effect. */
  ghost predicate Replaced(d: Disk, d': Disk, b: Budget) {
    d'.file == b && (d'.durable == d.durable || d'.durable == b)
  }

  lemma CoversMore(r: Budget, r': Budget, log: seq<Admission>)
    requires Covers(r, log) && r'.day == r.day
    requires r'.requests >= r.requests && r'.tokens >= r.tokens && r'.cost >= r.cost
    ensures Covers(r', log)
  {
  }

  /** The file changes only when it equals the broker's own copy, and then to the
      copy with one reservation fewer unsettled. */
  lemma SettleEffect(m: Mem, d: Disk, env: Env)
    ensures var r := Settle(m, d, env);
      if r.disk.file == d.file then
        r.disk == d && r.outcome != Granted && (r.mem == m || r.mem == m.(persistenceFailed := true))
      else
        && d.file == m.budget && Count(d.file.unsettled) > 0 && CheckClock(d.file, env.now) == Granted
        && Replaced(d, r.disk, d.file.(unsettled := Some(Count(d.file.unsettled) - 1), lastSeen := Some(env.now)))
        && (r.outcome == Granted ==> r.disk.durable == r.disk.file && r.mem == m.(budget := r.disk.file))
        && (r.outcome != Granted ==> r.mem == m.(persistenceFailed := true))
  {
  }

  lemma SettleKeeps(cfg: Config, w: World, id: Id, env: Env)
    requires cfg.Valid() && Sound(cfg, w) && w.broker.Some? && id in w.broker.value.reservations
    ensures Sound(cfg, ApplySettle(w, w.broker.value, id, env))
  {
    var p := w.broker.value;
    var w' := ApplySettle(w, p, id, env);
    SettleEffect(p.mem, w.disk, env);
    assert (p.reservations - {id}).Keys == p.reservations.Keys - {id};
    if w'.disk.file != w.disk.file {
      CoversMore(w.disk.file, w'.disk.file, w.log);
      assert |w.outstanding - {id}| == |w.outstanding| - 1;
    }
    assert DiskSound(cfg, w');
    forall g | g in p.guards
      ensures GuardSound(w', w'.broker.value, g)
    {
      assert GuardSound(w, p, g);
    }
  }

  lemma ExhaustEffect(m: Mem, d: Disk, env: Env)
    ensures var r := Exhaust(m, d, env);
      if r.disk.file == d.file then
        && r.disk == d
        && (r.outcome == Granted ==> r.mem == m && d.file == m.budget && Exhausted(m.budget))
        && (r.outcome != Granted ==> r.mem == m || r.mem == m.(persistenceFailed := true))
      else
        && d.file == m.budget && CheckClock(d.file, env.now) == Granted
        && Replaced(d, r.disk, d.file.(tokens := U64_MAX, cost := U64_MAX, lastSeen := Some(env.now)))
        && (r.outcome == Granted ==> r.disk.durable == r.disk.file && r.mem == m.(budget := r.disk.file))
        && (r.outcome != Granted ==> r.mem == m.(persistenceFailed := true))
  {
  }

  lemma ExhaustKeeps(cfg: Config, w: World, id: Id, env: Env)
    requires cfg.Valid() && Sound(cfg, w) && w.broker.Some?
    requires id in w.broker.value.guards && w.broker.value.guards[id].phase == Waiting
    ensures Sound(cfg, ApplyExhaust(w, w.broker.value, id, env))
  {
    var p := w.broker.value;
    var w' := ApplyExhaust(w, p, id, env);
    ExhaustEffect(p.mem, w.disk, env);
    UpdatedKey(p.guards, id, w'.broker.value.guards[id]);
    if w'.disk.file != w.disk.file {
      CoversMore(w.disk.file, w'.disk.file, w.log);
    }
    assert DiskSound(cfg, w');
    forall g | g in w'.broker.value.guards
      ensures GuardSound(w', w'.broker.value, g)
    {
      assert GuardSound(w, p, g);
    }
  }

  lemma ReleaseEffect(m: Mem, d: Disk, clear: bool, env: Env)
    ensures var r := Release(m, d, clear, env);
      var m' := m.(active := if m.active == 0 then 0 else m.active - 1);
      if r.disk.file == d.file then
        r.disk == d && (r.mem == m' || r.mem == m'.(persistenceFailed := true))
      else
        && clear && d.file == m.budget && Count(d.file.pending) > 0 && CheckClock(d.file, env.now) == Granted
        && Replaced(d, r.disk, r.disk.file)
        && r.disk.file == d.file.(pending := r.disk.file.pending, lastSeen := Some(env.now))
        && Count(r.disk.file.pending) == Count(d.file.pending) - 1
        && ((r.disk.durable == r.disk.file && r.mem == m'.(budget := r.disk.file))
            || r.mem == m'.(persistenceFailed := true))
  {
  }

  lemma ReleaseKeeps(cfg: Config, w: World, id: Id, env: Env)
    requires cfg.Valid() && Sound(cfg, w) && w.broker.Some?
    requires id in w.broker.value.guards && w.broker.value.guards[id].phase == Idle
    ensures Sound(cfg, ApplyRelease(w, w.broker.value, id, env))
  {
    var p := w.broker.value;
    var w' := ApplyRelease(w, p, id, env);
    ReleaseEffect(p.mem, w.disk, !p.guards[id].failed, env);
    RemovedKey(p.guards, id);
    assert GuardSound(w, p, id);
    SubsetSize(p.guards.Keys, w.unreleased);
    if w'.disk.file != w.disk.file {
      CoversMore(w.disk.file, w'.disk.file, w.log);
      assert |w.unreleased - {id}| == |w.unreleased| - 1;
    }
    assert DiskSound(cfg, w');
    forall g | g in w'.broker.value.guards
      ensures GuardSound(w', w'.broker.value, g)
    {
      assert GuardSound(w, p, g);
    }
  }

  /** Admission changes the file in one of two ways: a refusal may move only the
      clock checkpoint, and an accepted charge is `Charged` on the opened record. */
  lemma ReserveEffect(cfg: Config, m: Mem, d: Disk, tokens: U64, cost: U64, track: bool, env: Env)
    requires cfg.Valid()
    ensures var r := Reserve(cfg, m, d, tokens, cost, track, env);
      if r.disk.file == d.file then
        r.disk == d && r.outcome != Granted && (r.mem == m || r.mem == m.(persistenceFailed := true))
      else
        && !m.persistenceFailed && !m.overagePending
        && d.file == m.budget && CheckClock(d.file, env.now) == Granted && Replaced(d, r.disk, r.disk.file)
        && if r.disk.file == d.file.(lastSeen := Some(env.now)) then
             && r.outcome != Granted
             && (r.mem == m || (r.mem == m.(budget := r.disk.file) && r.disk.durable == r.disk.file))
           else
             Admitted(cfg, m, d, r, tokens, cost, track, env)
  {
  }

  ghost predicate Admitted(cfg: Config, m: Mem, d: Disk, r: Locked, tokens: U64, cost: U64, track: bool, env: Env)
    requires cfg.Valid()
  {
    var b := Opened(d.file, DayOf(env.now));
    && Count(d.file.pending) <= m.active
    && (b.day != d.file.day ==> d.file.pending.None? && d.file.unsettled == Some(0))
    && WithinBudget(cfg, b, tokens, cost)
    && Count(b.unsettled) < U64_MAX && (track ==> Count(b.pending) < U64_MAX && m.active < U64_MAX)
    && r.disk.file == Charged(b, tokens, cost, track, env.now)
    && (r.outcome == Granted ==>
          && r.disk.durable == r.disk.file
          && r.mem.budget == r.disk.file
          && r.mem.active == (if track then m.active + 1 else m.active)
          && !r.mem.persistenceFailed && !r.mem.overagePending)
    && (r.outcome != Granted ==> r.mem == m.(persistenceFailed := true))
  }

  /** An admission's record covers every earlier admission with room to spare for
      its own charge. */
  lemma ChargeCovers(r: Budget, log: seq<Admission>, day: U64, tokens: U64, cost: U64, track: bool, now: U64)
    requires Covers(r, log) && r.day <= day
    requires var b := Opened(r, day);
      b.requests < U64_MAX && b.tokens + tokens <= U64_MAX && b.cost + cost <= U64_MAX
      && Count(b.unsettled) < U64_MAX && (track ==> Count(b.pending) < U64_MAX)
    ensures var b := Charged(Opened(r, day), tokens, cost, track, now);
      && (forall i :: 0 <= i < |log| ==> log[i].day <= day)
      && Requests(log, day) + 1 <= b.requests
      && Tokens(log, day) + tokens <= b.tokens
      && Cost(log, day) + cost <= b.cost
  {
    if r.day < day {
      TotalsOfUnusedDay(log, day);
    }
  }

  lemma LoggedWithinBudgets(cfg: Config, log: seq<Admission>, a: Admission)
    requires WithinDailyBudgets(cfg, log)
    requires Requests(log, a.day) + 1 <= cfg.dailyRequests
    requires Tokens(log, a.day) + a.tokens <= cfg.dailyTokens
    requires Cost(log, a.day) + a.cost <= cfg.dailyCost
    ensures WithinDailyBudgets(cfg, log + [a])
  {
    forall day: U64
      ensures Requests(log + [a], day) <= cfg.dailyRequests
      ensures Tokens(log + [a], day) <= cfg.dailyTokens
      ensures Cost(log + [a], day) <= cfg.dailyCost
    {
      TotalsAppend(log, a, day);
    }
  }

  lemma RefusalKeepsDisk(cfg: Config, w: World, l: Label)
    requires cfg.Valid() && Sound(cfg, w) && w.broker.Some? && l.Reserving?
    requires Reserve(cfg, w.broker.value.mem, w.disk, l.tokens, l.cost, l.track, l.env).outcome != Granted
    ensures DiskSound(cfg, ApplyReserve(cfg, w, w.broker.value, l))
  {
    var p := w.broker.value;
    var w' := ApplyReserve(cfg, w, p, l);
    ReserveEffect(cfg, p.mem, w.disk, l.tokens, l.cost, l.track, l.env);
    if w'.disk.file == w.disk.file {
    } else if w'.disk.file == w.disk.file.(lastSeen := Some(l.env.now)) {
      CoversMore(w.disk.file, w'.disk.file, w.log);
    } else {
      ChargeCovers(w.disk.file, w.log, DayOf(l.env.now), l.tokens, l.cost, l.track, l.env.now);
      assert RecordSound(w'.disk.file, w');
    }
  }

  lemma GrantKeepsTotals(cfg: Config, m: Mem, d: Disk, log: seq<Admission>, l: Label)
    requires cfg.Valid() && l.Reserving? && Covers(d.file, log) && WithinDailyBudgets(cfg, log)
    requires Reserve(cfg, m, d, l.tokens, l.cost, l.track, l.env).outcome == Granted
    ensures var a := Admission(DayOf(l.env.now), l.tokens, l.cost);
      && Covers(Reserve(cfg, m, d, l.tokens, l.cost, l.track, l.env).disk.file, log + [a])
      && WithinDailyBudgets(cfg, log + [a])
  {
    var day := DayOf(l.env.now);
    var a := Admission(day, l.tokens, l.cost);
    ReserveEffect(cfg, m, d, l.tokens, l.cost, l.track, l.env);
    ChargeCovers(d.file, log, day, l.tokens, l.cost, l.track, l.env.now);
    TotalsAppend(log, a, day);
    LoggedWithinBudgets(cfg, log, a);
  }

  lemma GrantKeepsHolds(cfg: Config, w: World, l: Label)
    requires cfg.Valid() && l.Reserving? && w.broker.Some? && NamesSound(w)
    requires Remembers(w.disk.file, w.outstanding, w.unreleased, w.raisers)
    requires w.exact ==> |w.outstanding| == Count(w.disk.file.unsettled) && |w.unreleased| == Count(w.disk.file.pending)
    requires Reserve(cfg, w.broker.value.mem, w.disk, l.tokens, l.cost, l.track, l.env).outcome == Granted
    ensures var w' := ApplyReserve(cfg, w, w.broker.value, l);
      && Remembers(w'.disk.file, w'.outstanding, w'.unreleased, w'.raisers)
      && NamesSound(w')
      && (w'.exact ==> |w'.outstanding| == Count(w'.disk.file.unsettled) && |w'.unreleased| == Count(w'.disk.file.pending))
  {
    ReserveEffect(cfg, w.broker.value.mem, w.disk, l.tokens, l.cost, l.track, l.env);
    assert |w.outstanding + {|w.log|}| == |w.outstanding| + 1;
    assert |w.unreleased + {|w.log|}| == |w.unreleased| + 1;
  }

  lemma GrantKeepsDisk(cfg: Config, w: World, l: Label)
    requires cfg.Valid() && Sound(cfg, w) && w.broker.Some? && l.Reserving?
    requires Reserve(cfg, w.broker.value.mem, w.disk, l.tokens, l.cost, l.track, l.env).outcome == Granted
    ensures DiskSound(cfg, ApplyReserve(cfg, w, w.broker.value, l))
  {
    ReserveEffect(cfg, w.broker.value.mem, w.disk, l.tokens, l.cost, l.track, l.env);
    GrantKeepsTotals(cfg, w.broker.value.mem, w.disk, w.log, l);
    GrantKeepsHolds(cfg, w, l);
  }

  lemma ReserveKeepsBroker(cfg: Config, w: World, l: Label)
    requires cfg.Valid() && Sound(cfg, w) && w.broker.Some? && l.Reserving?
    ensures var w' := ApplyReserve(cfg, w, w.broker.value, l);
      w'.broker.Some? && BrokerSound(w', w'.broker.value)
  {
    var p := w.broker.value;
    var r := Reserve(cfg, p.mem, w.disk, l.tokens, l.cost, l.track, l.env);
    var w' := ApplyReserve(cfg, w, p, l);
    var p' := w'.broker.value;
    ReserveEffect(cfg, p.mem, w.disk, l.tokens, l.cost, l.track, l.env);
    var id := |w.log|;
    assert id !in p.guards && id !in w.raisers;
    if r.outcome == Granted && l.track {
      AddedKey(p.guards, id, Guard(l.tokens, l.cost, Idle, false));
    }
    SubsetSize(p.guards.Keys, w.unreleased);
    forall g | g in p'.guards
      ensures GuardSound(w', p', g)
    {
      if g in p.guards {
        assert GuardSound(w, p, g);
      }
    }
    assert p'.reservations.Keys <= w'.outstanding;
  }

  /** A flag write touches neither the disk nor any count. */
  lemma FlagKeeps(cfg: Config, w: World, l: Label)
    requires cfg.Valid() && Sound(cfg, w) && w.broker.Some?
    requires l.RaisingFlag? || l.MarkingFailed? || l.UnmarkingFailed? || l.LoweringFlag?
    ensures Sound(cfg, Apply(cfg, w, l))
  {
    var p := w.broker.value;
    var w' := Apply(cfg, w, l);
    if w' != w {
      UpdatedKey(p.guards, l.id, w'.broker.value.guards[l.id]);
      assert DiskSound(cfg, w');
      forall g | g in p.guards
        ensures GuardSound(w', w'.broker.value, g)
      {
        assert GuardSound(w, p, g);
      }
    }
  }

  lemma LoadEffect(d: Disk, env: Env)
    ensures var (mem, d') := Load(d, env);
      && (mem.Some? ==> mem.value == Mem(d'.file, Rate(0, 0), 0, false, false))
      && if d'.file == d.file then d' == d
         else CheckClock(d.file, env.now) == Granted && Replaced(d, d', d.file.(lastSeen := Some(env.now)))
  {
  }

  lemma StartingKeeps(cfg: Config, w: World, env: Env)
    requires cfg.Valid() && Sound(cfg, w) && w.broker.None?
    ensures Sound(cfg, ApplyStopped(w, Starting(env)))
  {
    var w' := ApplyStopped(w, Starting(env));
    LoadEffect(w.disk, env);
    CoversMore(w.disk.file, w'.disk.file, w.log);
    if w.raisers != {} && !Exhausted(w.disk.file) {
      SubsetSize(w.raisers, w.unreleased);
    }
  }

  lemma ReconcilingKeeps(cfg: Config, w: World, env: Env)
    requires cfg.Valid() && Sound(cfg, w) && w.broker.None?
    ensures Sound(cfg, ApplyStopped(w, Reconciling(env)))
  {
    var w' := ApplyStopped(w, Reconciling(env));
    CoversMore(w.disk.file, w'.disk.file, w.log);
    if w' != w {
      assert RecordSound(w'.disk.file, w') && RecordSound(w'.disk.durable, w');
    }
  }

  lemma StoppedKeeps(cfg: Config, w: World, l: Label)
    requires cfg.Valid() && Sound(cfg, w) && w.broker.None?
    ensures Sound(cfg, Apply(cfg, w, l))
  {
    match l
    case Starting(env) => StartingKeeps(cfg, w, env);
    case Reconciling(env) => ReconcilingKeeps(cfg, w, env);
    case _ =>
  }

  /** Every step of every interleaving keeps the invariant. */
  lemma StepKeeps(cfg: Config, w: World, l: Label)
    requires cfg.Valid() && Sound(cfg, w)
    ensures Sound(cfg, Apply(cfg, w, l))
  {
    if w.broker.None? {
      StoppedKeeps(cfg, w, l);
    } else {
      var p := w.broker.value;
      match l
      case Reserving(_, _, _, _) =>
        if Reserve(cfg, p.mem, w.disk, l.tokens, l.cost, l.track, l.env).outcome == Granted {
          GrantKeepsDisk(cfg, w, l);
        } else {
          RefusalKeepsDisk(cfg, w, l);
        }
        ReserveKeepsBroker(cfg, w, l);
      case Settling(id, env) =>
        if id in p.reservations { SettleKeeps(cfg, w, id, env); }
      case DroppingReservation(id, env) =>
        if id in p.reservations && !p.reservations[id] { SettleKeeps(cfg, w, id, env); }
        else { assert Sound(cfg, Apply(cfg, w, l)) by { NoGuardChange(cfg, w, l); } }
      case ExhaustingDay(id, env) =>
        if id in p.guards && p.guards[id].phase == Waiting { ExhaustKeeps(cfg, w, id, env); }
      case DroppingGuard(id, env) =>
        if id in p.guards && p.guards[id].phase == Idle { ReleaseKeeps(cfg, w, id, env); }
      case RaisingFlag(_, _, _) => FlagKeeps(cfg, w, l);
      case MarkingFailed(_) => FlagKeeps(cfg, w, l);
      case UnmarkingFailed(_) => FlagKeeps(cfg, w, l);
      case LoweringFlag(_) => FlagKeeps(cfg, w, l);
      case _ => NoGuardChange(cfg, w, l);
    }
  }

  lemma NoGuardChange(cfg: Config, w: World, l: Label)
    requires cfg.Valid() && Sound(cfg, w) && w.broker.Some?
    requires || l.Dispatching? || l.Crashing? || l.LosingPower? || l.Flushing? || l.Starting? || l.Reconciling?
             || (l.DroppingReservation? && (l.id in w.broker.value.reservations ==> w.broker.value.reservations[l.id]))
    ensures Sound(cfg, Apply(cfg, w, l))
  {
    var p := w.broker.value;
    var w' := Apply(cfg, w, l);
    assert DiskSound(cfg, w');
    if w'.broker.Some? {
      assert w'.broker.value.reservations.Keys <= p.reservations.Keys;
      forall g | g in p.guards
        ensures GuardSound(w', w'.broker.value, g)
      {
        assert GuardSound(w, p, g);
      }
    }
  }

  lemma {:induction false} RunSound(cfg: Config, now: U64, labels: seq<Label>)
    requires cfg.Valid() && now > 0
    ensures Sound(cfg, Run(cfg, now, labels))
  {
    if labels == [] {
    } else {
      RunSound(cfg, now, labels[..|labels| - 1]);
      StepKeeps(cfg, Run(cfg, now, labels[..|labels| - 1]), labels[|labels| - 1]);
    }
  }
}
