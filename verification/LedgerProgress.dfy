/** That the strict ledger also admits: the rate limit counts exactly the running
    broker's own admissions of a window, known outcomes do settle and release, and
    a ledger that was wound down admits the next day. */
module LedgerProgress {
  import opened Wrappers
  import opened Ledger
  import opened LedgerRuns
  import opened LedgerTheorems

  // The rate limit.

  function WindowOf(cfg: Config, now: U64): U64
    requires cfg.Valid()
  {
    now / cfg.windowSeconds
  }

  ghost predicate AdmitsIn(cfg: Config, w: World, l: Label, window: U64)
    requires cfg.Valid()
  {
    l.Reserving? && Admits(w, Apply(cfg, w, l)) && WindowOf(cfg, l.env.now) == window
  }

  /** How many admissions of `window` the broker that runs after `labels` has made
      since it started. */
  ghost function Own(cfg: Config, now: U64, labels: seq<Label>, window: U64): nat
    requires cfg.Valid()
  {
    if labels == [] then 0
    else
      var before, l := labels[..|labels| - 1], labels[|labels| - 1];
      var w := Run(cfg, now, before);
      if w.broker.None? || Run(cfg, now, labels).broker.None? then 0
      else Own(cfg, now, before, window) + (if AdmitsIn(cfg, w, l, window) then 1 else 0)
  }

  /** The clock a broker has seen, in windows. */
  ghost predicate Clocked(cfg: Config, m: Mem)
    requires cfg.Valid()
  {
    m.budget.lastSeen.Some? && m.rate.window <= WindowOf(cfg, m.budget.lastSeen.value)
  }

  lemma WindowsInOrder(cfg: Config, t: U64, t': U64)
    requires cfg.Valid() && t <= t'
    ensures WindowOf(cfg, t) <= WindowOf(cfg, t')
  {
    Quotients(t, t', cfg.windowSeconds);
  }

  lemma Quotients(t: nat, t': nat, s: nat)
    requires s > 0 && t <= t'
    ensures t / s <= t' / s
  {
    Quotient(t, s);
    Quotient(t', s);
    Products(t' / s + 1, t / s, s);
  }

  lemma Quotient(t: nat, s: nat)
    requires s > 0
    ensures t / s * s <= t < (t / s + 1) * s
  {
  }

  lemma Products(a: nat, b: nat, s: nat)
    ensures a <= b ==> a * s <= b * s
  {
  }

  /** `own` counts a broker's admissions by window: what its memory says about the
      latest window is true, there are none later, and no count is over the limit. */
  ghost predicate Counted(cfg: Config, m: Mem, own: U64 -> nat)
    requires cfg.Valid()
  {
    && (forall window: U64 :: own(window) <= cfg.maxPerWindow)
    && Clocked(cfg, m) && m.rate.requests == own(m.rate.window)
    && (forall window: U64 :: window > m.rate.window ==> own(window) == 0)
  }

  ghost function Owns(cfg: Config, now: U64, labels: seq<Label>): U64 -> nat
    requires cfg.Valid()
  {
    window => Own(cfg, now, labels, window)
  }

  /** The rate count of one admission, and the clock of any other answer. */
  lemma ReserveRate(cfg: Config, m: Mem, d: Disk, tokens: U64, cost: U64, track: bool, env: Env)
    requires cfg.Valid() && Clocked(cfg, m)
    ensures var r, window := Reserve(cfg, m, d, tokens, cost, track, env), WindowOf(cfg, env.now);
      if r.outcome == Granted then
        var used := if m.rate.window == window then m.rate.requests else 0;
        && m.rate.window <= window && used < cfg.maxPerWindow
        && r.mem.rate == Rate(window, used + 1) && r.mem.budget.lastSeen == Some(env.now)
      else
        r.mem.rate == m.rate && Clocked(cfg, r.mem)
  {
    ReserveEffect(cfg, m, d, tokens, cost, track, env);
    if m.budget.lastSeen.value <= env.now {
      WindowsInOrder(cfg, m.budget.lastSeen.value, env.now);
    }
  }

  lemma SectionsRate(cfg: Config, m: Mem, d: Disk, clear: bool, env: Env)
    requires cfg.Valid() && Clocked(cfg, m)
    ensures Settle(m, d, env).mem.rate == m.rate && Clocked(cfg, Settle(m, d, env).mem)
    ensures Exhaust(m, d, env).mem.rate == m.rate && Clocked(cfg, Exhaust(m, d, env).mem)
    ensures Release(m, d, clear, env).mem.rate == m.rate && Clocked(cfg, Release(m, d, clear, env).mem)
  {
    SettleEffect(m, d, env);
    ExhaustEffect(m, d, env);
    ReleaseEffect(m, d, clear, env);
    if m.budget.lastSeen.value <= env.now {
      WindowsInOrder(cfg, m.budget.lastSeen.value, env.now);
    }
  }

  /** Every other step of a running broker leaves the count alone. */
  lemma OtherStepsRate(cfg: Config, w: World, l: Label)
    requires cfg.Valid() && w.broker.Some? && !l.Reserving? && Apply(cfg, w, l).broker.Some? && Clocked(cfg, w.broker.value.mem)
    ensures var m' := Apply(cfg, w, l).broker.value.mem;
      m'.rate == w.broker.value.mem.rate && Clocked(cfg, m') && !Admits(w, Apply(cfg, w, l))
  {
    hide Settle, Exhaust, Release;
    if l.Settling? || l.DroppingReservation? || l.ExhaustingDay? || l.DroppingGuard? {
      SectionsRate(cfg, w.broker.value.mem, w.disk, true, l.env);
      SectionsRate(cfg, w.broker.value.mem, w.disk, false, l.env);
    }
  }

  lemma StartedClocked(cfg: Config, w: World, l: Label)
    requires cfg.Valid() && w.broker.None? && Apply(cfg, w, l).broker.Some?
    ensures var m := Apply(cfg, w, l).broker.value.mem; Clocked(cfg, m) && m.rate.requests == 0 && !Admits(w, Apply(cfg, w, l))
  {
  }

  lemma OwnNext(cfg: Config, now: U64, before: seq<Label>, l: Label, window: U64)
    requires cfg.Valid()
    ensures var w := Run(cfg, now, before);
      Own(cfg, now, before + [l], window) ==
        if w.broker.None? || Apply(cfg, w, l).broker.None? then 0
        else Own(cfg, now, before, window) + (if AdmitsIn(cfg, w, l, window) then 1 else 0)
  {
    hide Apply;
    assert (before + [l])[..|before|] == before;
  }

  lemma AdmissionCounted(cfg: Config, w: World, l: Label, own: U64 -> nat, own': U64 -> nat)
    requires cfg.Valid() && w.broker.Some? && l.Reserving? && Counted(cfg, w.broker.value.mem, own)
    requires forall window: U64 :: own'(window) == own(window) + (if AdmitsIn(cfg, w, l, window) then 1 else 0)
    ensures Apply(cfg, w, l).broker.Some? && Counted(cfg, Apply(cfg, w, l).broker.value.mem, own')
  {
    var m := w.broker.value.mem;
    ReserveRate(cfg, m, w.disk, l.tokens, l.cost, l.track, l.env);
    hide Reserve;
  }

  lemma StepCounted(cfg: Config, w: World, l: Label, own: U64 -> nat, own': U64 -> nat)
    requires cfg.Valid() && Apply(cfg, w, l).broker.Some?
    requires w.broker.Some? ==> Counted(cfg, w.broker.value.mem, own)
    requires forall window: U64 ::
      own'(window) == if w.broker.None? then 0 else own(window) + (if AdmitsIn(cfg, w, l, window) then 1 else 0)
    ensures Counted(cfg, Apply(cfg, w, l).broker.value.mem, own')
  {
    hide Apply, Clocked;
    if w.broker.None? {
      StartedClocked(cfg, w, l);
    } else if l.Reserving? {
      AdmissionCounted(cfg, w, l, own, own');
    } else {
      OtherStepsRate(cfg, w, l);
    }
  }

  /** A running broker's rate count is the number of its own admissions of the
      window it is about. */
  lemma {:induction false} RateIsCounted(cfg: Config, now: U64, labels: seq<Label>)
    requires cfg.Valid()
    ensures var w := Run(cfg, now, labels);
      w.broker.Some? ==> Counted(cfg, w.broker.value.mem, Owns(cfg, now, labels))
  {
    if labels != [] {
      var before, l := labels[..|labels| - 1], labels[|labels| - 1];
      assert before + [l] == labels;
      RateIsCounted(cfg, now, before);
      assert Run(cfg, now, labels) == Apply(cfg, Run(cfg, now, before), l);
      hide Run, Apply, Counted, Own, AdmitsIn;
      if Run(cfg, now, labels).broker.Some? {
        forall window: U64
          ensures Owns(cfg, now, labels)(window) ==
            if Run(cfg, now, before).broker.None? then 0
            else Owns(cfg, now, before)(window) + (if AdmitsIn(cfg, Run(cfg, now, before), l, window) then 1 else 0)
        {
          OwnNext(cfg, now, before, l, window);
        }
        StepCounted(cfg, Run(cfg, now, before), l, Owns(cfg, now, before), Owns(cfg, now, labels));
      }
    }
  }

  /** No broker admits more requests in one window than configured. */
  lemma RateLimitHolds(cfg: Config, now: U64, labels: seq<Label>, window: U64)
    requires cfg.Valid()
    ensures Own(cfg, now, labels, window) <= cfg.maxPerWindow
  {
    RateIsCounted(cfg, now, labels);
    if Run(cfg, now, labels).broker.Some? {
      assert Owns(cfg, now, labels)(window) <= cfg.maxPerWindow;
    }
  }

  // When a request is admitted.

  /** The broker can replace the file: it owns it, the file is readable and its own
      copy, and the clock did not go back. */
  ghost predicate Writable(w: World, env: Env) {
    && w.broker.Some? && env.owned && Readable(w.disk.file) && w.disk.file == w.broker.value.mem.budget
    && env.now >= w.disk.file.lastSeen.value
  }

  ghost predicate Room(cfg: Config, b: Budget, l: Label)
    requires l.Reserving?
  {
    if b.day == DayOf(l.env.now) then
      && b.requests < cfg.dailyRequests && b.tokens + l.tokens <= cfg.dailyTokens && b.cost + l.cost <= cfg.dailyCost
    else
      b.pending.None? && b.unsettled == Some(0) && l.tokens <= cfg.dailyTokens && l.cost <= cfg.dailyCost
  }

  lemma CountsFit(cfg: Config, w: World)
    requires Sound(cfg, w) && w.broker.Some? && Readable(w.disk.file)
    ensures var b := w.disk.file;
      b.unsettled.value <= b.requests && Count(b.pending) <= b.requests && w.broker.value.mem.active <= Count(b.pending)
  {
    SubsetSize(w.broker.value.guards.Keys, w.unreleased);
  }

  lemma ReserveIff(cfg: Config, m: Mem, d: Disk, tokens: U64, cost: U64, track: bool, env: Env)
    requires cfg.Valid() && ClockSound(d.file) && (Readable(d.file) ==> m.active <= Count(d.file.pending))
    ensures var r, window, l := Reserve(cfg, m, d, tokens, cost, track, env), WindowOf(cfg, env.now), Reserving(tokens, cost, track, env);
      var used := if m.rate.window == window then m.rate.requests else 0;
      && (r.outcome == Granted <==>
            && env.owned && Readable(d.file) && d.file == m.budget && env.now >= d.file.lastSeen.value && env.fate == Synced
            && !m.persistenceFailed && !m.overagePending && Count(d.file.pending) <= m.active
            && used < cfg.maxPerWindow && Room(cfg, d.file, l))
      && (r.outcome == Refused(RateLimited) ==>
            used >= cfg.maxPerWindow && d.file == m.budget && env.now >= d.file.lastSeen.value)
  {
  }

  lemma UsedIsOwn(cfg: Config, m: Mem, own: U64 -> nat, now: U64)
    requires cfg.Valid() && Counted(cfg, m, own) && now >= m.budget.lastSeen.value
    ensures var window := WindowOf(cfg, now);
      own(window) == if m.rate.window == window then m.rate.requests else 0
  {
    WindowsInOrder(cfg, m.budget.lastSeen.value, now);
  }

  lemma AdmittedIff(cfg: Config, w: World, l: Label, own: U64 -> nat)
    requires cfg.Valid() && l.Reserving? && w.broker.Some? && Sound(cfg, w) && Counted(cfg, w.broker.value.mem, own)
    ensures var p, room := w.broker.value, own(WindowOf(cfg, l.env.now)) < cfg.maxPerWindow;
      var r := Reserve(cfg, p.mem, w.disk, l.tokens, l.cost, l.track, l.env);
      && (r.outcome == Granted <==>
            && Writable(w, l.env) && l.env.fate == Synced
            && !p.mem.persistenceFailed && !p.mem.overagePending && Count(w.disk.file.pending) <= |p.guards|
            && room && Room(cfg, w.disk.file, l))
      && (r.outcome == Refused(RateLimited) ==> !room)
  {
    var m := w.broker.value.mem;
    assert m.active == |w.broker.value.guards| && ClockSound(w.disk.file);
    if Readable(w.disk.file) {
      CountsFit(cfg, w);
    }
    ReserveIff(cfg, m, w.disk, l.tokens, l.cost, l.track, l.env);
    hide Reserve, Sound, Room, Readable, ClockSound;
    if w.disk.file == m.budget && l.env.now >= m.budget.lastSeen.value {
      UsedIsOwn(cfg, m, own, l.env.now);
    }
  }

  lemma AdmitsGranted(cfg: Config, w: World, l: Label)
    requires cfg.Valid() && l.Reserving? && w.broker.Some?
    ensures Admits(w, Apply(cfg, w, l)) <==> Reserve(cfg, w.broker.value.mem, w.disk, l.tokens, l.cost, l.track, l.env).outcome == Granted
  {
    hide Reserve;
  }

  /** A request is admitted exactly when the broker can write and persists, no
      failed persist or overage holds it, no guard of a dead broker is pending,
      the broker's own admissions leave room in the window and the record leaves
      room in the day: today's, or a new one with nothing pending or unsettled.
      It is refused for its rate only if the window is full. */
  lemma AdmissionIsExact(cfg: Config, now: U64, labels: seq<Label>, l: Label)
    requires cfg.Valid() && now > 0 && l.Reserving? && Run(cfg, now, labels).broker.Some?
    ensures var w := Run(cfg, now, labels); var p := w.broker.value;
      var own := Own(cfg, now, labels, WindowOf(cfg, l.env.now));
      && (Admits(w, Apply(cfg, w, l)) <==>
            && Writable(w, l.env) && l.env.fate == Synced
            && !p.mem.persistenceFailed && !p.mem.overagePending && Count(w.disk.file.pending) <= |p.guards|
            && own < cfg.maxPerWindow && Room(cfg, w.disk.file, l))
      && (Reserve(cfg, p.mem, w.disk, l.tokens, l.cost, l.track, l.env).outcome == Refused(RateLimited) ==>
            own == cfg.maxPerWindow)
  {
    RunSound(cfg, now, labels);
    RateIsCounted(cfg, now, labels);
    var own := Owns(cfg, now, labels);
    assert own(WindowOf(cfg, l.env.now)) == Own(cfg, now, labels, WindowOf(cfg, l.env.now));
    hide Run, Own, Owns, Reserve, Sound, Room, Apply, Admits, Writable;
    AdmittedIff(cfg, Run(cfg, now, labels), l, own);
    AdmitsGranted(cfg, Run(cfg, now, labels), l);
  }

  /** What an admission writes: exactly its own charge, on today's counters or on
      those of a day that starts from nothing. */
  lemma AdmissionCharges(cfg: Config, w: World, l: Label)
    requires cfg.Valid() && l.Reserving? && w.broker.Some? && Admits(w, Apply(cfg, w, l))
    ensures var b, w', day := w.disk.file, Apply(cfg, w, l), DayOf(l.env.now);
      && w'.disk.file == w'.disk.durable == w'.broker.value.mem.budget
      && w'.disk.file.day == day && w'.disk.file.lastSeen == Some(l.env.now)
      && w'.disk.file.requests == (if b.day == day then b.requests else 0) + 1
      && w'.disk.file.tokens == (if b.day == day then b.tokens else 0) + l.tokens
      && w'.disk.file.cost == (if b.day == day then b.cost else 0) + l.cost
      && Count(w'.disk.file.unsettled) == Count(b.unsettled) + 1
      && Count(w'.disk.file.pending) == Count(b.pending) + (if l.track then 1 else 0)
      && w'.log == w.log + [Admission(day, l.tokens, l.cost)]
  {
    ReserveEffect(cfg, w.broker.value.mem, w.disk, l.tokens, l.cost, l.track, l.env);
    hide Reserve;
  }

  /** A refusal by a limit or a hold still moves the stored clock, so that no later
      reading before it is accepted. */
  lemma RefusalCheckpoints(cfg: Config, m: Mem, d: Disk, tokens: U64, cost: U64, track: bool, env: Env)
    requires cfg.Valid() && ClockSound(d.file) && env.fate == Synced && d.durable == d.file
    requires Readable(d.file) ==> m.active <= Count(d.file.pending)
    ensures var r, b' := Reserve(cfg, m, d, tokens, cost, track, env), d.file.(lastSeen := Some(env.now));
      r.outcome in {Refused(RateLimited), Refused(BudgetExceeded), Refused(UnresolvedUsage), Refused(UsageBlocksDay), Refused(UnsettledBlocksDay)} ==>
        r.disk == Disk(b', b') && r.mem == m.(budget := b')
  {
  }

  /** Which hold or limit is named, in the order they are looked at. */
  lemma RefusalNames(cfg: Config, m: Mem, d: Disk, tokens: U64, cost: U64, track: bool, env: Env)
    requires cfg.Valid() && ClockSound(d.file) && (Readable(d.file) ==> m.active <= Count(d.file.pending))
    requires env.fate == Synced && env.owned && Readable(d.file) && d.file == m.budget && env.now >= d.file.lastSeen.value
    ensures var r, l := Reserve(cfg, m, d, tokens, cost, track, env), Reserving(tokens, cost, track, env);
      var b, later := d.file, d.file.day != DayOf(env.now);
      r.outcome ==
        if m.persistenceFailed then Refused(PersistenceFailed)
        else if m.overagePending then Refused(OverageInProgress)
        else if Count(b.pending) > m.active then Refused(UnresolvedUsage)
        else if later && b.pending.Some? then Refused(UsageBlocksDay)
        else if later && b.unsettled != Some(0) then Refused(UnsettledBlocksDay)
        else if m.rate.window == WindowOf(cfg, env.now) && m.rate.requests >= cfg.maxPerWindow then Refused(RateLimited)
        else if !Room(cfg, b, l) then Refused(BudgetExceeded)
        else Granted
  {
  }

  // Known outcomes settle and release.

  lemma SettleGranted(m: Mem, d: Disk, env: Env)
    requires env.owned && Readable(d.file) && d.file == m.budget && ClockSound(d.file) && env.now >= d.file.lastSeen.value
    requires env.fate == Synced && Count(d.file.unsettled) > 0
    ensures var b' := d.file.(unsettled := Some(Count(d.file.unsettled) - 1), lastSeen := Some(env.now));
      Settle(m, d, env) == Locked(m.(budget := b'), Disk(b', b'), Granted)
  {
  }

  /** Settling a reservation, or dropping one that was never dispatched, lowers the
      count by exactly one whenever the broker can write and persists. */
  lemma KnownOutcomeSettles(cfg: Config, w: World, l: Label)
    requires cfg.Valid() && Sound(cfg, w) && (l.Settling? || l.DroppingReservation?)
    requires Writable(w, l.env) && l.env.fate == Synced && l.id in w.broker.value.reservations
    requires l.DroppingReservation? ==> !w.broker.value.reservations[l.id]
    ensures var p, b, w' := w.broker.value, w.disk.file, Apply(cfg, w, l);
      && Count(b.unsettled) > 0
      && var b' := b.(unsettled := Some(Count(b.unsettled) - 1), lastSeen := Some(l.env.now));
         && w' == w.(disk := Disk(b', b'), outstanding := w.outstanding - {l.id},
                     broker := Some(p.(mem := p.mem.(budget := b'), reservations := p.reservations - {l.id})))
         && Settle(p.mem, w.disk, l.env).outcome == Granted
  {
    SubsetSize({l.id}, w.outstanding);
    SettleGranted(w.broker.value.mem, w.disk, l.env);
    hide Sound, Settle;
  }

  /** Dropping a guard without an unrecorded overage lowers the pending count by
      exactly one; dropping one with such an overage leaves the record alone. */
  lemma DroppedGuardReleases(cfg: Config, w: World, l: Label)
    requires cfg.Valid() && Sound(cfg, w) && l.DroppingGuard? && w.broker.Some?
    requires l.id in w.broker.value.guards && w.broker.value.guards[l.id].phase == Idle
    ensures var p, b, w' := w.broker.value, w.disk.file, Apply(cfg, w, l);
      var left := p.(mem := p.mem.(active := |p.guards| - 1), guards := p.guards - {l.id});
      && (p.guards[l.id].failed ==> w' == w.(broker := Some(left)))
      && (!p.guards[l.id].failed && !p.mem.persistenceFailed && Writable(w, l.env) && l.env.fate == Synced ==>
            && Count(b.pending) > 0
            && var n := Count(b.pending) - 1;
               var b' := b.(pending := if n == 0 then None else Some(n), lastSeen := Some(l.env.now));
               w' == w.(disk := Disk(b', b'), unreleased := w.unreleased - {l.id},
                        broker := Some(left.(mem := left.mem.(budget := b')))))
  {
    SubsetSize({l.id}, w.unreleased);
    assert w.broker.value.mem.active == |w.broker.value.guards| && ClockSound(w.disk.file);
    hide Sound;
  }

  /** A reported overage reaches both records, in the counters that block the day,
      whenever the broker can write and persists. */
  lemma OverageIsRecorded(cfg: Config, w: World, l: Label)
    requires cfg.Valid() && Sound(cfg, w) && l.ExhaustingDay? && Writable(w, l.env) && l.env.fate == Synced
    requires !w.broker.value.mem.persistenceFailed
    requires l.id in w.broker.value.guards && w.broker.value.guards[l.id].phase == Waiting
    ensures var p', b' := Apply(cfg, w, l).broker.value, Apply(cfg, w, l).disk.file;
      && Exhausted(b') && Exhausted(Apply(cfg, w, l).disk.durable) && p'.mem.budget == b' && !p'.mem.persistenceFailed
      && p'.guards[l.id].phase == Exhausting
  {
    assert ClockSound(w.disk.file) && (w.disk.durable == w.disk.file);
    hide Sound;
  }

  /** A broker starts exactly when it owns a readable record, the clock did not go
      back and the new clock reading is stored. */
  lemma StartsIff(cfg: Config, w: World, env: Env)
    requires cfg.Valid() && Sound(cfg, w) && w.broker.None?
    ensures var w' := Apply(cfg, w, Starting(env));
      && (w'.broker.Some? <==>
            && env.owned && Readable(w.disk.file) && env.now >= w.disk.file.lastSeen.value
            && (env.fate == Synced || env.now == w.disk.file.lastSeen.value))
      && (w'.broker.Some? ==>
            && w'.disk.file == w.disk.file.(lastSeen := Some(env.now))
            && w'.broker == Some(Process(Mem(w'.disk.file, Rate(0, 0), 0, false, false), map[], map[])))
  {
    assert ClockSound(w.disk.file);
    hide Sound;
  }

  /** An operator's reconciliation clears every hold and refunds nothing, exactly
      when it owns a readable record, the clock did not go back and it persists. */
  lemma ReconcilesIff(d: Disk, env: Env)
    requires ClockSound(d.file)
    ensures var (outcome, d') := Reconcile(d, env);
      && (outcome == Granted <==> env.owned && Readable(d.file) && env.now >= d.file.lastSeen.value && env.fate == Synced)
      && (outcome == Granted ==>
            var b := d.file;
            d'.file == d'.durable == Budget(b.day, b.requests, b.tokens, b.cost, Some(env.now), Some(0), None))
  {
  }

  // Winding down.

  /** Nothing is held but what callers can still settle or release. */
  ghost predicate Calm(cfg: Config, w: World) {
    && Sound(cfg, w) && w.exact && w.broker.Some? && Readable(w.disk.file) && w.disk.file == w.broker.value.mem.budget
    && var p := w.broker.value;
       && !p.mem.persistenceFailed && !p.mem.overagePending
       && w.outstanding == p.reservations.Keys && w.unreleased == p.guards.Keys
       && forall id :: id in p.guards ==> p.guards[id].phase == Idle && !p.guards[id].failed
  }

  /** One more outcome known, one more guard dropped. */
  ghost predicate Closes(w: World, l: Label)
    requires w.broker.Some?
  {
    && (l.Settling? || l.DroppingGuard?)
    && (if l.Settling? then l.id in w.broker.value.reservations else l.id in w.broker.value.guards)
    && Writable(w, l.env) && l.env.fate == Synced
  }

  ghost function Open(w: World): nat {
    |w.outstanding| + |w.unreleased|
  }

  lemma CloseStep(cfg: Config, w: World, l: Label)
    requires cfg.Valid() && Calm(cfg, w) && Closes(w, l)
    ensures var w' := Apply(cfg, w, l); Calm(cfg, w') && Open(w') == Open(w) - 1 && w'.disk.file.lastSeen == Some(l.env.now)
  {
    hide Sound, Apply;
    var p := w.broker.value;
    StepKeeps(cfg, w, l);
    if l.Settling? {
      KnownOutcomeSettles(cfg, w, l);
      assert (p.reservations - {l.id}).Keys == p.reservations.Keys - {l.id};
    } else {
      DroppedGuardReleases(cfg, w, l);
      assert (p.guards - {l.id}).Keys == p.guards.Keys - {l.id};
    }
  }

  /** As long as something is open, it can be closed at any later clock reading. */
  lemma SomethingCloses(cfg: Config, w: World, t: U64) returns (l: Label)
    requires Calm(cfg, w) && Open(w) > 0 && t >= w.disk.file.lastSeen.value
    ensures Closes(w, l) && l.env.now == t
  {
    var p := w.broker.value;
    if w.outstanding != {} {
      var id :| id in w.outstanding;
      l := Settling(id, Env(t, true, Synced));
    } else {
      var id :| id in w.unreleased;
      l := DroppingGuard(id, Env(t, true, Synced));
    }
  }

  /** Each of `more` closes something. */
  ghost predicate AllClose(cfg: Config, w: World, more: seq<Label>)
    requires cfg.Valid()
    decreases |more|
  {
    more == [] || (w.broker.Some? && Closes(w, more[0]) && AllClose(cfg, Apply(cfg, w, more[0]), more[1..]))
  }

  ghost function After(cfg: Config, w: World, more: seq<Label>): World
    requires cfg.Valid()
    decreases |more|
  {
    if more == [] then w else After(cfg, Apply(cfg, w, more[0]), more[1..])
  }

  lemma {:induction false} CloseAll(cfg: Config, w: World, more: seq<Label>)
    requires cfg.Valid() && Calm(cfg, w) && AllClose(cfg, w, more)
    ensures Calm(cfg, After(cfg, w, more)) && Open(After(cfg, w, more)) == Open(w) - |more|
    decreases |more|
  {
    if more != [] {
      CloseStep(cfg, w, more[0]);
      hide Calm, Apply, Closes;
      CloseAll(cfg, Apply(cfg, w, more[0]), more[1..]);
    }
  }

  lemma {:induction false} ClosesAtOnce(cfg: Config, w: World, t: U64) returns (more: seq<Label>)
    requires cfg.Valid() && Calm(cfg, w) && t >= w.disk.file.lastSeen.value
    ensures AllClose(cfg, w, more) && |more| == Open(w)
    decreases Open(w)
  {
    if Open(w) == 0 {
      more := [];
    } else {
      var l := SomethingCloses(cfg, w, t);
      CloseStep(cfg, w, l);
      hide Calm, Apply, Closes;
      var rest := ClosesAtOnce(cfg, Apply(cfg, w, l), t);
      more := [l] + rest;
      assert more[1..] == rest;
    }
  }

  lemma {:induction false} RunAfter(cfg: Config, now: U64, labels: seq<Label>, more: seq<Label>)
    requires cfg.Valid()
    ensures Run(cfg, now, labels + more) == After(cfg, Run(cfg, now, labels), more)
    decreases |more|
  {
    hide Apply;
    if more == [] {
      assert labels + more == labels;
    } else {
      assert labels + more == labels + [more[0]] + more[1..] && (labels + [more[0]])[..|labels|] == labels;
      RunAfter(cfg, now, labels + [more[0]], more[1..]);
    }
  }

  /** With everything settled and released, the next day is open for business. */
  lemma SettledLedgerAdmitsNextDay(cfg: Config, now: U64, labels: seq<Label>, l: Label)
    requires cfg.Valid() && now > 0 && l.Reserving?
    requires var w := Run(cfg, now, labels);
      && w.exact && w.outstanding == {} && w.unreleased == {} && Writable(w, l.env) && l.env.fate == Synced
      && !w.broker.value.mem.persistenceFailed && !w.broker.value.mem.overagePending && DayOf(l.env.now) > w.disk.file.day
    requires Own(cfg, now, labels, WindowOf(cfg, l.env.now)) < cfg.maxPerWindow
    requires l.tokens <= cfg.dailyTokens && l.cost <= cfg.dailyCost
    ensures Admits(Run(cfg, now, labels), Apply(cfg, Run(cfg, now, labels), l))
  {
    RunSound(cfg, now, labels);
    AdmissionIsExact(cfg, now, labels, l);
    hide Run, Apply, Own, Admits;
  }

  /** Whatever the order in which a calm ledger's outcomes become known and its
      guards are dropped, when none is left the next day admits. */
  lemma WoundDownLedgerAdmits(cfg: Config, now: U64, labels: seq<Label>, more: seq<Label>, l: Label)
    requires cfg.Valid() && now > 0 && l.Reserving? && l.env.owned && l.env.fate == Synced
    requires var w := Run(cfg, now, labels); Calm(cfg, w) && AllClose(cfg, w, more) && |more| == Open(w)
    requires var b := Run(cfg, now, labels + more).disk.file;
      b.lastSeen.Some? && l.env.now >= b.lastSeen.value && DayOf(l.env.now) > b.day
    requires Own(cfg, now, labels + more, WindowOf(cfg, l.env.now)) < cfg.maxPerWindow
    requires l.tokens <= cfg.dailyTokens && l.cost <= cfg.dailyCost
    ensures Admits(Run(cfg, now, labels + more), Apply(cfg, Run(cfg, now, labels + more), l))
  {
    RunAfter(cfg, now, labels, more);
    CloseAll(cfg, Run(cfg, now, labels), more);
    hide Run, Apply, Own, Admits, AllClose, After, Sound;
    SettledLedgerAdmitsNextDay(cfg, now, labels + more, l);
  }
}
