/** What the strict ledger promises, over every run. */
module LedgerTheorems {
  import opened Wrappers
  import opened Ledger
  import opened LedgerRuns

  /** The world just before step `k` of a run. */
  function At(cfg: Config, now: U64, labels: seq<Label>, k: nat): World
    requires cfg.Valid() && k <= |labels|
  {
    Run(cfg, now, labels[..k])
  }

  lemma AtNext(cfg: Config, now: U64, labels: seq<Label>, k: nat)
    requires cfg.Valid() && k < |labels|
    ensures At(cfg, now, labels, k + 1) == Apply(cfg, At(cfg, now, labels, k), labels[k])
  {
    assert labels[..k + 1][..k] == labels[..k];
  }

  /** A step whose caller was told its reservation succeeded. */
  ghost predicate Admits(w: World, w': World) {
    |w'.log| > |w.log|
  }

  ghost predicate OpensDay(w: World, w': World) {
    w'.disk.file.day > w.disk.file.day
  }

  // Daily budgets.

  lemma DailyBudgetsHold(cfg: Config, now: U64, labels: seq<Label>, day: U64)
    requires cfg.Valid() && now > 0
    ensures var log := Run(cfg, now, labels).log;
      Requests(log, day) <= cfg.dailyRequests && Tokens(log, day) <= cfg.dailyTokens && Cost(log, day) <= cfg.dailyCost
  {
    RunSound(cfg, now, labels);
  }

  // The clock and the day.

  ghost predicate Later(r: Budget, r': Budget) {
    r.day <= r'.day && Count(r.lastSeen) <= Count(r'.lastSeen)
  }

  ghost predicate Forward(d: Disk, d': Disk) {
    Later(d.file, d'.file) && Later(d.durable, d'.durable)
  }

  /** Every critical section moves both records forward, or leaves them alone. */
  lemma SectionsMoveForward(cfg: Config, m: Mem, d: Disk, tokens: U64, cost: U64, flag: bool, env: Env)
    requires cfg.Valid() && ClockSound(d.file) && Later(d.durable, d.file)
    ensures Forward(d, Reserve(cfg, m, d, tokens, cost, flag, env).disk)
    ensures Forward(d, Settle(m, d, env).disk)
    ensures Forward(d, Exhaust(m, d, env).disk)
    ensures Forward(d, Release(m, d, flag, env).disk)
  {
    ReserveEffect(cfg, m, d, tokens, cost, flag, env);
    SettleEffect(m, d, env);
    ExhaustEffect(m, d, env);
    ReleaseEffect(m, d, flag, env);
  }

  /** The record a power loss would leave never goes back in time; the visible
      one only goes back when a power loss discards an unsynced replacement. */
  lemma StepMovesForward(cfg: Config, w: World, l: Label)
    requires cfg.Valid() && ClockSound(w.disk.file) && Later(w.disk.durable, w.disk.file)
    ensures var w' := Apply(cfg, w, l);
      Later(w.disk.durable, w'.disk.durable) && (!l.LosingPower? ==> Later(w.disk.file, w'.disk.file))
  {
    if w.broker.None? {
      StoppedMovesForward(w, l);
    } else {
      var p := w.broker.value;
      match l
      case Reserving(tokens, cost, track, env) => SectionsMoveForward(cfg, p.mem, w.disk, tokens, cost, track, env);
      case Settling(_, env) => SectionsMoveForward(cfg, p.mem, w.disk, 0, 0, false, env);
      case DroppingReservation(_, env) => SectionsMoveForward(cfg, p.mem, w.disk, 0, 0, false, env);
      case ExhaustingDay(_, env) => SectionsMoveForward(cfg, p.mem, w.disk, 0, 0, false, env);
      case DroppingGuard(id, env) =>
        if id in p.guards { SectionsMoveForward(cfg, p.mem, w.disk, 0, 0, !p.guards[id].failed, env); }
      case _ =>
    }
  }

  lemma StoppedMovesForward(w: World, l: Label)
    requires ClockSound(w.disk.file) && Later(w.disk.durable, w.disk.file)
    ensures var w' := ApplyStopped(w, l);
      Later(w.disk.durable, w'.disk.durable) && (!l.LosingPower? ==> Later(w.disk.file, w'.disk.file))
  {
    if l.Starting? {
      LoadEffect(w.disk, l.env);
    }
  }

  /** Day and clock never go back: not those a power loss would leave, and not the
      visible ones between power losses. */
  lemma {:induction false} LedgerNeverGoesBack(cfg: Config, now: U64, labels: seq<Label>, k: nat)
    requires cfg.Valid() && now > 0 && k <= |labels|
    ensures var w, w' := At(cfg, now, labels, k), Run(cfg, now, labels);
      && Later(w.disk.durable, w'.disk.durable)
      && ((forall i :: k <= i < |labels| ==> !labels[i].LosingPower?) ==> Later(w.disk.file, w'.disk.file))
    decreases |labels|
  {
    RunSound(cfg, now, labels);
    if k == |labels| {
      assert labels[..k] == labels;
    } else {
      var front := labels[..|labels| - 1];
      assert front[..k] == labels[..k];
      RunSound(cfg, now, front);
      LedgerNeverGoesBack(cfg, now, front, k);
      StepMovesForward(cfg, Run(cfg, now, front), labels[|labels| - 1]);
    }
  }

  // Overage.

  /** While an overage is on record, a positive charge is admitted only by opening
      a later day, and only once every usage guard ever handed out is released. */
  lemma OverageHolds(cfg: Config, w: World, l: Label)
    requires cfg.Valid() && Sound(cfg, w) && w.raisers != {}
    requires l.Reserving? && (l.tokens > 0 || l.cost > 0)
    requires Admits(w, Apply(cfg, w, l))
    ensures OpensDay(w, Apply(cfg, w, l)) && w.unreleased == {}
  {
    var m := w.broker.value.mem;
    ReserveEffect(cfg, m, w.disk, l.tokens, l.cost, l.track, l.env);
  }

  /** A reconciliation that took effect: it succeeded, or failed after it had
      replaced the record. A refused one is none. */
  ghost predicate Reconciles(w: World, l: Label) {
    && l.Reconciling? && w.broker.None?
    && (Reconcile(w.disk, l.env).0 == Granted || Reconcile(w.disk, l.env).1 != w.disk)
  }

  /** Nothing but an opened day or an effective reconciliation forgets an overage. */
  lemma RaisersStay(cfg: Config, w: World, l: Label)
    requires cfg.Valid() && Sound(cfg, w)
    requires !OpensDay(w, Apply(cfg, w, l)) && !Reconciles(w, l)
    ensures w.raisers <= Apply(cfg, w, l).raisers
  {
    StepMovesForward(cfg, w, l);
  }

  /** A day opens only when no reservation may still be running at the provider
      and no usage guard is unreleased, whichever broker handed them out. */
  lemma DayOpensOnlyWhenSettled(cfg: Config, w: World, l: Label)
    requires cfg.Valid() && Sound(cfg, w) && OpensDay(w, Apply(cfg, w, l))
    ensures l.Reserving? && w.outstanding == {} && w.unreleased == {}
  {
    if w.broker.Some? {
      var m := w.broker.value.mem;
      match l
      case Reserving(tokens, cost, track, env) => ReserveEffect(cfg, m, w.disk, tokens, cost, track, env);
      case Settling(_, env) => SettleEffect(m, w.disk, env);
      case DroppingReservation(_, env) => SettleEffect(m, w.disk, env);
      case ExhaustingDay(_, env) => ExhaustEffect(m, w.disk, env);
      case DroppingGuard(id, env) =>
        if id in w.broker.value.guards { ReleaseEffect(m, w.disk, !w.broker.value.guards[id].failed, env); }
      case _ =>
    }
  }

  /** The overage promise over a whole run. At step `i` some guard's owner finds
      its call over the reservation and raises the flag. From then on, through
      any interleaving of other observers (including one lowering the flag while
      this one still waits), drops, failed persists, crashes, power losses and
      restarts, no positive charge is admitted at step `j` unless some step in
      between, or `j` itself, opened a later day with every guard released and
      every reservation settled, or an operator's reconciliation took effect. */
  lemma {:induction false} OverageBlocksAdmission(cfg: Config, now: U64, labels: seq<Label>, i: nat, j: nat)
    requires cfg.Valid() && now > 0 && i < j < |labels|
    requires labels[i].RaisingFlag? && labels[i].id in At(cfg, now, labels, i + 1).raisers
    requires labels[j].Reserving? && (labels[j].tokens > 0 || labels[j].cost > 0)
    requires Admits(At(cfg, now, labels, j), At(cfg, now, labels, j + 1))
    ensures exists k :: i < k <= j && Releases(cfg, now, labels, k)
  {
    if forall k :: i < k < j ==> !Releases(cfg, now, labels, k) {
      RaisersPersist(cfg, now, labels, i, j);
      RunSound(cfg, now, labels[..j]);
      AtNext(cfg, now, labels, j);
      OverageHolds(cfg, At(cfg, now, labels, j), labels[j]);
      DayOpensOnlyWhenSettled(cfg, At(cfg, now, labels, j), labels[j]);
      assert Releases(cfg, now, labels, j);
    }
  }

  /** Step `k` reconciles with effect, or opens a day with nothing left open. */
  ghost predicate Releases(cfg: Config, now: U64, labels: seq<Label>, k: nat)
    requires cfg.Valid() && k < |labels|
  {
    var w, w' := At(cfg, now, labels, k), At(cfg, now, labels, k + 1);
    || Reconciles(w, labels[k])
    || (OpensDay(w, w') && w.outstanding == {} && w.unreleased == {})
  }

  lemma {:induction false} RaisersPersist(cfg: Config, now: U64, labels: seq<Label>, i: nat, j: nat)
    requires cfg.Valid() && now > 0 && i < j < |labels|
    requires labels[i].RaisingFlag? && labels[i].id in At(cfg, now, labels, i + 1).raisers
    requires forall k :: i < k < j ==> !Releases(cfg, now, labels, k)
    ensures labels[i].id in At(cfg, now, labels, j).raisers
    decreases j
  {
    if j > i + 1 {
      RaisersPersist(cfg, now, labels, i, j - 1);
      var w := At(cfg, now, labels, j - 1);
      RunSound(cfg, now, labels[..j - 1]);
      AtNext(cfg, now, labels, j - 1);
      assert !Releases(cfg, now, labels, j - 1);
      if OpensDay(w, At(cfg, now, labels, j)) {
        DayOpensOnlyWhenSettled(cfg, w, labels[j - 1]);
      }
      RaisersStay(cfg, w, labels[j - 1]);
    }
  }

  /** A guard whose release no record counted and that no running broker holds: its
      broker died, or failed to record it. */
  ghost predicate Orphaned(w: World, id: Id) {
    id < |w.log| && id in w.unreleased && (w.broker.Some? ==> id !in w.broker.value.guards)
  }

  lemma OrphanRefuses(cfg: Config, w: World, l: Label, id: Id)
    requires cfg.Valid() && Sound(cfg, w) && Orphaned(w, id)
    ensures !Admits(w, Apply(cfg, w, l))
  {
    if l.Reserving? && w.broker.Some? {
      var p := w.broker.value;
      ReserveEffect(cfg, p.mem, w.disk, l.tokens, l.cost, l.track, l.env);
      assert |w.unreleased - {id}| == |w.unreleased| - 1;
      SubsetSize(p.guards.Keys, w.unreleased - {id});
    }
  }

  lemma OrphanStays(cfg: Config, w: World, l: Label, id: Id)
    requires cfg.Valid() && Orphaned(w, id) && !Reconciles(w, l)
    ensures Orphaned(Apply(cfg, w, l), id)
  {
  }

  /** An orphaned guard blocks every admission of every later broker, across any
      crashes, restarts and days, until a reconciliation takes effect. */
  lemma {:induction false} OrphanedGuardBlocks(cfg: Config, now: U64, labels: seq<Label>, i: nat, j: nat, id: Id)
    requires cfg.Valid() && now > 0 && i <= j <= |labels| && Orphaned(At(cfg, now, labels, i), id)
    requires forall k :: i <= k < j ==> !Reconciles(At(cfg, now, labels, k), labels[k])
    ensures Orphaned(At(cfg, now, labels, j), id)
    ensures forall k :: i <= k < j ==> !Admits(At(cfg, now, labels, k), At(cfg, now, labels, k + 1))
    decreases j
  {
    hide Run, Apply, Sound, Reconciles, Orphaned, Admits;
    if j > i {
      OrphanedGuardBlocks(cfg, now, labels, i, j - 1, id);
      RunSound(cfg, now, labels[..j - 1]);
      AtNext(cfg, now, labels, j - 1);
      OrphanRefuses(cfg, At(cfg, now, labels, j - 1), labels[j - 1], id);
      OrphanStays(cfg, At(cfg, now, labels, j - 1), labels[j - 1], id);
    }
  }

  // Settlement.

  /** No request is admitted on a later day while a reservation of the ledger's
      day may have been dispatched and is not settled. */
  lemma NoLaterDayWhileOutstanding(cfg: Config, now: U64, labels: seq<Label>, k: nat)
    requires cfg.Valid() && now > 0 && k < |labels|
    requires Admits(At(cfg, now, labels, k), At(cfg, now, labels, k + 1))
    ensures var w, w' := At(cfg, now, labels, k), At(cfg, now, labels, k + 1);
      && w'.log == w.log + [w'.log[|w.log|]]
      && w'.log[|w.log|].day >= w.disk.file.day
      && (w'.log[|w.log|].day > w.disk.file.day ==> w.outstanding == {} && w.unreleased == {})
  {
    RunSound(cfg, now, labels[..k]);
    AtNext(cfg, now, labels, k);
    var w := At(cfg, now, labels, k);
    StepMovesForward(cfg, w, labels[k]);
    if OpensDay(w, At(cfg, now, labels, k + 1)) {
      DayOpensOnlyWhenSettled(cfg, w, labels[k]);
    }
  }

  /** `id` was admitted and no running broker still holds its capability. */
  ghost predicate Spent(w: World, id: Id) {
    id < |w.log| && (w.broker.Some? ==> id !in w.broker.value.reservations)
  }

  lemma StepKeepsSpent(cfg: Config, w: World, l: Label, id: Id)
    requires cfg.Valid() && Spent(w, id)
    ensures Spent(Apply(cfg, w, l), id)
  {
    if w.broker.Some? {
      match l
      case Reserving(_, _, _, _) => assert id != |w.log|;
      case _ =>
    }
  }

  lemma {:induction false} SpentForever(cfg: Config, now: U64, labels: seq<Label>, i: nat, j: nat, id: Id)
    requires cfg.Valid() && i <= j <= |labels| && Spent(At(cfg, now, labels, i), id)
    ensures Spent(At(cfg, now, labels, j), id)
    decreases j
  {
    if i < j {
      SpentForever(cfg, now, labels, i, j - 1, id);
      AtNext(cfg, now, labels, j - 1);
      StepKeepsSpent(cfg, At(cfg, now, labels, j - 1), labels[j - 1], id);
    }
  }

  /** The step settles `id`, by a completed response or a pre-dispatch drop, and
      the file afterwards counts one unsettled reservation fewer. */
  ghost predicate LowersUnsettled(cfg: Config, now: U64, labels: seq<Label>, k: nat, id: Id)
    requires cfg.Valid() && k < |labels|
  {
    && (labels[k].Settling? || labels[k].DroppingReservation?) && labels[k].id == id
    && Count(At(cfg, now, labels, k + 1).disk.file.unsettled) < Count(At(cfg, now, labels, k).disk.file.unsettled)
  }

  lemma EachReservationSettlesOnce(cfg: Config, now: U64, labels: seq<Label>, i: nat, j: nat, id: Id)
    requires cfg.Valid() && now > 0 && i < j < |labels|
    requires LowersUnsettled(cfg, now, labels, i, id)
    ensures !LowersUnsettled(cfg, now, labels, j, id)
  {
    RunSound(cfg, now, labels[..i]);
    AtNext(cfg, now, labels, i);
    AtNext(cfg, now, labels, j);
    var w := At(cfg, now, labels, i);
    if w.broker.Some? && id in w.broker.value.reservations {
      assert id in w.outstanding;
    }
    SpentForever(cfg, now, labels, i + 1, j, id);
  }

  // Progress and conservation.

  /** Counts are exact unless a charge was recorded behind its caller's back or a
      power loss undid a replacement: nothing leaks. */
  lemma CountsAreExact(cfg: Config, now: U64, labels: seq<Label>)
    requires cfg.Valid() && now > 0 && Run(cfg, now, labels).exact
    ensures var w := Run(cfg, now, labels);
      && Count(w.disk.file.unsettled) == |w.outstanding|
      && Count(w.disk.file.pending) == |w.unreleased|
  {
    RunSound(cfg, now, labels);
  }

  // The reader's own checks.

  /** A charged record passes the reader's checks exactly when its token and cost
      counters, the charge included, are positive. */
  lemma ChargeReadableIff(b: Budget, tokens: U64, cost: U64, track: bool, now: U64)
    requires Readable(b) && b.requests < U64_MAX && b.tokens + tokens <= U64_MAX && b.cost + cost <= U64_MAX
    requires Count(b.unsettled) < U64_MAX && (track ==> Count(b.pending) < U64_MAX)
    ensures Readable(Charged(b, tokens, cost, track, now))
       <==> (tokens > 0 || b.tokens > 0) && (cost > 0 || b.cost > 0)
  {
  }

  ghost predicate PositiveCharge(l: Label) {
    l.Reserving? ==> l.tokens > 0 && l.cost > 0
  }

  ghost predicate DiskReadable(d: Disk) {
    Readable(d.file) && Readable(d.durable)
  }

  lemma SectionsStayReadable(cfg: Config, m: Mem, d: Disk, tokens: U64, cost: U64, flag: bool, env: Env)
    requires cfg.Valid() && DiskReadable(d)
    ensures tokens > 0 && cost > 0 ==> DiskReadable(Reserve(cfg, m, d, tokens, cost, flag, env).disk)
    ensures DiskReadable(Settle(m, d, env).disk)
    ensures d.file.pending.Some? ==> DiskReadable(Exhaust(m, d, env).disk)
    ensures DiskReadable(Release(m, d, flag, env).disk)
  {
    ReserveEffect(cfg, m, d, tokens, cost, flag, env);
    SettleEffect(m, d, env);
    ExhaustEffect(m, d, env);
  }

  lemma StepReadable(cfg: Config, w: World, l: Label)
    requires cfg.Valid() && Sound(cfg, w) && PositiveCharge(l) && DiskReadable(w.disk)
    ensures DiskReadable(Apply(cfg, w, l).disk)
  {
    if w.broker.Some? {
      var p := w.broker.value;
      match l
      case Reserving(tokens, cost, track, env) => SectionsStayReadable(cfg, p.mem, w.disk, tokens, cost, track, env);
      case Settling(_, env) => SectionsStayReadable(cfg, p.mem, w.disk, 0, 0, false, env);
      case DroppingReservation(_, env) => SectionsStayReadable(cfg, p.mem, w.disk, 0, 0, false, env);
      case ExhaustingDay(id, env) =>
        SectionsStayReadable(cfg, p.mem, w.disk, 0, 0, false, env);
        if id in p.guards {
          SubsetSize({id}, w.unreleased);
        }
      case DroppingGuard(id, env) =>
        if id in p.guards { SectionsStayReadable(cfg, p.mem, w.disk, 0, 0, !p.guards[id].failed, env); }
      case _ =>
    }
  }

  /** No record the broker can leave behind, at any crash point, is one it would
      refuse to read back. */
  lemma {:induction false} EveryRecordIsReadable(cfg: Config, now: U64, labels: seq<Label>)
    requires cfg.Valid() && now > 0
    requires forall k :: 0 <= k < |labels| ==> PositiveCharge(labels[k])
    ensures var w := Run(cfg, now, labels);
      && DiskReadable(w.disk)
      && ClockSound(w.disk.file) && ClockSound(w.disk.durable)
  {
    RunSound(cfg, now, labels);
    if labels != [] {
      var front := labels[..|labels| - 1];
      EveryRecordIsReadable(cfg, now, front);
      RunSound(cfg, now, front);
      StepReadable(cfg, Run(cfg, now, front), labels[|labels| - 1]);
    }
  }
}
