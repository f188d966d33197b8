/** The broker's `Limits` object, its state file and the two capabilities it hands
    out, as the methods that update them in place. Each critical section is proved
    to compute what the ledger's specification says. */
module Limits {
  import opened Wrappers
  import opened Ledger

  /** The state file. Readers see `file`; a power loss leaves `durable`. */
  class StateFile {
    var file: Budget
    var durable: Budget

    constructor (b: Budget)
      ensures View() == Disk(b, b)
    {
      file, durable := b, b;
    }

    ghost function View(): Disk
      reads this
    {
      Disk(file, durable)
    }

    /** Write a temporary, exchange it with the file, drop the prior record and
        sync the directory. An error may come before or after the exchange. */
    method Replace(b: Budget, fate: Fate) returns (ok: bool)
      modifies this
      ensures View() == Ledger.Replace(old(View()), b, fate)
      ensures ok <==> View() == Disk(b, b) && fate == Synced
    {
      if fate == Kept {
        return false;
      }
      file := b;
      if fate == Unsynced {
        return false;
      }
      durable := file;
      return true;
    }
  }

  class Limits {
    const config: Config
    const state: StateFile
    var budget: Budget
    var rate: Rate
    var active: U64
    var persistenceFailed: bool
    var overagePending: bool

    constructor (config: Config, state: StateFile, m: Mem)
      requires config.Valid()
      ensures this.config == config && this.state == state && Memory() == m
    {
      this.config, this.state := config, state;
      budget, rate, active := m.budget, m.rate, m.active;
      persistenceFailed, overagePending := m.persistenceFailed, m.overagePending;
    }

    ghost function Memory(): Mem
      reads this
    {
      Mem(budget, rate, active, persistenceFailed, overagePending)
    }

    method Verify(env: Env) returns (outcome: Outcome)
      ensures outcome == Ledger.Verify(budget, state.View(), env)
    {
      if !env.owned {
        return Refused(NotOwner);
      }
      if !Readable(state.file) {
        return Refused(Unreadable);
      }
      if state.file != budget {
        return Refused(Changed);
      }
      return CheckClock(budget, env.now);
    }

    /** Refuse with `why` after moving the clock checkpoint. */
    method Checkpoint(env: Env, why: Failure) returns (outcome: Outcome)
      modifies this, state
      ensures Locked(Memory(), state.View(), outcome) == Checkpointed(old(Memory()), old(state.View()), env, why)
    {
      if budget.lastSeen != Some(env.now) {
        var checkpoint := budget.(lastSeen := Some(env.now));
        var ok := state.Replace(checkpoint, env.fate);
        if !ok {
          return Refused(IoError);
        }
        budget := checkpoint;
      }
      return Refused(why);
    }

    method Persist(b: Budget, env: Env) returns (outcome: Outcome)
      modifies this`persistenceFailed, state
      ensures state.View() == Ledger.Replace(old(state.View()), b, env.fate)
      ensures outcome == if env.fate == Synced then Granted else Refused(IoError)
      ensures persistenceFailed == (old(persistenceFailed) || env.fate != Synced)
    {
      var ok := state.Replace(b, env.fate);
      if !ok {
        persistenceFailed := true;
        return Refused(IoError);
      }
      return Granted;
    }

    /** Admission of one reservation. */
    method Reserve(tokens: U64, cost: U64, track: bool, env: Env) returns (outcome: Outcome)
      requires config.Valid()
      modifies this, state
      ensures Locked(Memory(), state.View(), outcome)
           == Ledger.Reserve(config, old(Memory()), old(state.View()), tokens, cost, track, env)
    {
      if persistenceFailed {
        return Refused(PersistenceFailed);
      }
      if overagePending {
        return Refused(OverageInProgress);
      }
      var day, window := DayOf(env.now), env.now / config.windowSeconds;
      var verified := Verify(env);
      if verified != Granted {
        return verified;
      }
      var b, r := budget, rate;
      if Count(b.pending) > active {
        outcome := Checkpoint(env, UnresolvedUsage);
        return;
      }
      if b.day != day {
        if b.pending.Some? {
          outcome := Checkpoint(env, UsageBlocksDay);
          return;
        }
        if b.unsettled != Some(0) {
          outcome := Checkpoint(env, UnsettledBlocksDay);
          return;
        }
        b := Budget(day, 0, 0, 0, None, Some(0), None);
      }
      if r.window != window {
        r := Rate(window, 0);
      }
      if r.requests >= config.maxPerWindow {
        outcome := Checkpoint(env, RateLimited);
        return;
      }
      var requests := CheckedAdd(b.requests, 1);
      var allTokens := CheckedAdd(b.tokens, tokens);
      var allCost := CheckedAdd(b.cost, cost);
      if requests.None? || allTokens.None? || allCost.None?
         || requests.value > config.dailyRequests || allTokens.value > config.dailyTokens || allCost.value > config.dailyCost
      {
        outcome := Checkpoint(env, BudgetExceeded);
        return;
      }
      b := b.(requests := requests.value, tokens := allTokens.value, cost := allCost.value, lastSeen := Some(env.now));
      if b.unsettled.None? {
        return Refused(MissingUnsettled);
      }
      if b.unsettled.value == U64_MAX {
        return Refused(BudgetExceeded);
      }
      b := b.(unsettled := Some(b.unsettled.value + 1));
      var nowActive := active;
      if track {
        if Count(b.pending) == U64_MAX || active == U64_MAX {
          return Refused(TooManyPending);
        }
        b := b.(pending := Some(Count(b.pending) + 1));
        nowActive := active + 1;
      }
      r := r.(requests := r.requests + 1);
      outcome := Persist(b, env);
      if outcome == Granted {
        budget, rate, active := b, r, nowActive;
      }
    }

    method ExhaustForOverage(env: Env) returns (outcome: Outcome)
      modifies this, state
      ensures Locked(Memory(), state.View(), outcome) == Exhaust(old(Memory()), old(state.View()), env)
    {
      if persistenceFailed {
        return Refused(PersistenceFailed);
      }
      var verified := Verify(env);
      if verified != Granted {
        return verified;
      }
      if budget.tokens == U64_MAX && budget.cost == U64_MAX {
        return Granted;
      }
      var b := budget.(tokens := U64_MAX, cost := U64_MAX, lastSeen := Some(env.now));
      outcome := Persist(b, env);
      if outcome == Granted {
        budget := b;
      }
    }

    method ReleaseUsage(clear: bool, env: Env)
      modifies this, state
      ensures Memory() == Release(old(Memory()), old(state.View()), clear, env).mem
      ensures state.View() == Release(old(Memory()), old(state.View()), clear, env).disk
    {
      active := if active == 0 then 0 else active - 1;
      if !clear || persistenceFailed {
        return;
      }
      var verified := Verify(env);
      if verified != Granted || Count(budget.pending) == 0 {
        return;
      }
      var left := budget.pending.value - 1;
      var b := budget.(pending := if left != 0 then Some(left) else None, lastSeen := Some(env.now));
      var outcome := Persist(b, env);
      if outcome == Granted {
        budget := b;
      }
    }

    method Settle(env: Env) returns (outcome: Outcome)
      modifies this, state
      ensures Locked(Memory(), state.View(), outcome) == Ledger.Settle(old(Memory()), old(state.View()), env)
    {
      var verified := Verify(env);
      if verified != Granted {
        return verified;
      }
      if budget.unsettled.None? {
        return Refused(MissingUnsettled);
      }
      if budget.unsettled.value == 0 {
        return Refused(AlreadySettled);
      }
      var b := budget.(unsettled := Some(budget.unsettled.value - 1), lastSeen := Some(env.now));
      outcome := Persist(b, env);
      if outcome == Granted {
        budget := b;
      }
    }
  }

  /** Startup in strict mode: no object unless the record may be trusted and its
      clock checkpoint could be moved to the present. */
  method LoadStrict(config: Config, state: StateFile, env: Env) returns (limits: Option<Limits>)
    requires config.Valid()
    modifies state
    ensures state.View() == Load(old(state.View()), env).1
    ensures limits.Some? == Load(old(state.View()), env).0.Some?
    ensures limits.Some? ==>
      && fresh(limits.value) && limits.value.config == config && limits.value.state == state
      && Some(limits.value.Memory()) == Load(old(state.View()), env).0
  {
    if !env.owned || !Readable(state.file) || CheckClock(state.file, env.now) != Granted {
      return None;
    }
    var b := state.file;
    if b.lastSeen != Some(env.now) {
      b := b.(lastSeen := Some(env.now));
      var ok := state.Replace(b, env.fate);
      if !ok {
        return None;
      }
    }
    var made := new Limits(config, state, Mem(b, Rate(0, 0), 0, false, false));
    limits := Some(made);
  }

  /** Operator recovery: reports how many holds were cleared. */
  method ReconcileStrict(state: StateFile, env: Env) returns (resolved: Result<(U64, U64), Failure>)
    modifies state
    ensures state.View() == Reconcile(old(state.View()), env).1
    ensures resolved.Ok? <==> Reconcile(old(state.View()), env).0 == Granted
    ensures resolved.Ok? ==>
      && resolved.value == (old(Count(state.file.unsettled)), old(Count(state.file.pending)))
      && state.file.unsettled == Some(0) && state.file.pending == None
      && state.file.day == old(state.file.day) && state.file.requests == old(state.file.requests)
      && state.file.tokens == old(state.file.tokens) && state.file.cost == old(state.file.cost)
  {
    if !env.owned {
      return Err(NotOwner);
    }
    if !Readable(state.file) {
      return Err(Unreadable);
    }
    var clock := CheckClock(state.file, env.now);
    if clock != Granted {
      return Err(clock.why);
    }
    var b := state.file;
    var held := (Count(b.unsettled), Count(b.pending));
    b := b.(unsettled := Some(0), pending := None, lastSeen := Some(env.now));
    var ok := state.Replace(b, env.fate);
    return if ok then Ok(held) else Err(IoError);
  }

  /** The watch kept over one model call's reported usage. */
  class UsageGuard {
    const limits: Limits
    const tokens: U64
    const cost: U64
    var failed: bool

    constructor (limits: Limits, tokens: U64, cost: U64)
      ensures this.limits == limits && this.tokens == tokens && this.cost == cost && !failed
    {
      this.limits, this.tokens, this.cost, failed := limits, tokens, cost, false;
    }

    /** Without interference: usage within the reservation changes nothing; an
        overage either leaves the day exhausted in the file, durably if the file
        was, with both flags lowered, or leaves both flags raised. */
    method Observe(usedTokens: U64, usedCost: Option<U64>, env: Env) returns (outcome: Outcome)
      modifies this, limits, limits.state
      ensures !(usedTokens > tokens || usedCost.None? || usedCost.value > cost) ==>
        outcome == Granted && unchanged(this) && unchanged(limits) && unchanged(limits.state)
      ensures usedTokens > tokens || usedCost.None? || usedCost.value > cost ==>
        if outcome == Granted then
          && !failed && !limits.overagePending
          && Exhausted(limits.budget) && limits.state.file == limits.budget
          && (old(limits.state.durable == limits.state.file) ==> limits.state.durable == limits.budget)
        else
          failed && limits.overagePending
    {
      outcome := Granted;
      if usedTokens > tokens || usedCost.None? || usedCost.value > cost {
        limits.overagePending := true;
        failed := true;
        outcome := limits.ExhaustForOverage(env);
        if outcome != Granted {
          return;
        }
        failed := false;
        limits.overagePending := false;
      }
    }

    /** Dropping the guard: its hold is cleared only if no overage is unaccounted. */
    method Drop(env: Env)
      modifies limits, limits.state
      ensures limits.Memory() == Release(old(limits.Memory()), old(limits.state.View()), !failed, env).mem
      ensures limits.state.View() == Release(old(limits.Memory()), old(limits.state.View()), !failed, env).disk
    {
      limits.ReleaseUsage(!failed, env);
    }
  }

  /** The move-only capability to settle one reservation. `spent` is the move. */
  class Reservation {
    const limits: Limits
    var dispatched: bool
    var spent: bool

    constructor (limits: Limits)
      ensures this.limits == limits && !dispatched && !spent
    {
      this.limits, dispatched, spent := limits, false, false;
    }

    method MarkDispatched()
      requires !spent
      modifies this`dispatched
      ensures dispatched
    {
      dispatched := true;
    }

    method Settle(env: Env) returns (outcome: Outcome)
      requires !spent
      modifies this, limits, limits.state
      ensures spent && dispatched
      ensures Locked(limits.Memory(), limits.state.View(), outcome)
           == Ledger.Settle(old(limits.Memory()), old(limits.state.View()), env)
    {
      MarkDispatched();
      spent := true;
      outcome := limits.Settle(env);
    }

    /** Dropping it settles exactly when no send was attempted. */
    method Drop(env: Env)
      requires !spent
      modifies this, limits, limits.state
      ensures spent
      ensures old(dispatched) ==> limits.Memory() == old(limits.Memory()) && limits.state.View() == old(limits.state.View())
      ensures !old(dispatched) ==>
        && limits.Memory() == Ledger.Settle(old(limits.Memory()), old(limits.state.View()), env).mem
        && limits.state.View() == Ledger.Settle(old(limits.Memory()), old(limits.state.View()), env).disk
    {
      spent := true;
      if !dispatched {
        var _ := limits.Settle(env);
      }
    }
  }
}
