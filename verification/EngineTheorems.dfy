/** What holds of every run of the control engine. */
module EngineTheorems {
  import opened Wrappers
  import opened Json
  import opened Order
  import opened Engine
  import opened EngineState
  import opened EngineRuns

  /** The validator never refuses an image the engine wrote, whichever of the two
      a crash leaves: opening succeeds exactly when recovery leaves it within the
      file's limit and can be published and the deployment has not drifted. */
  lemma EveryImageOpens(lib: Lib, labels: seq<Label>, cfg: Config, env: Env)
    requires lib.Valid()
    ensures var d := Run(lib, labels).disk;
      && Fits(lib, d.file) && Validate(lib, d.file) && Fits(lib, d.durable) && Validate(lib, d.durable)
      && (Open(lib, cfg, d, env).0.Some? <==> Fits(lib, Recovered(d.file)) && env.fate == Synced && CurrentHashes(lib, cfg, env).Some?)
  {
    RunSound(lib, labels);
    SoundValidates(lib, Run(lib, labels).disk.file);
    SoundValidates(lib, Run(lib, labels).disk.durable);
    OpenEffect(lib, Run(lib, labels).disk, cfg, env);
  }

  /** The builder receives each build at most once, over all restarts. */
  lemma EachBuildIsHandedOutOnce(lib: Lib, labels: seq<Label>, i: nat, j: nat)
    requires lib.Valid() && i < |Run(lib, labels).handed| && j < |Run(lib, labels).handed|
    requires Run(lib, labels).handed[i].work.id == Run(lib, labels).handed[j].work.id
    ensures i == j
  {
    RunSound(lib, labels);
  }

  predicate Bounded(builds: map<string, Build>) {
    && (forall x, y :: x in builds && y in builds && builds[x].approvalId == builds[y].approvalId ==> x == y)
    && |set id | id in builds && Active(builds[id].stage)| <= 4
    && (forall x, y :: x in builds && y in builds && builds[x].stage == Stage.Building && builds[y].stage == Stage.Building ==> x == y)
  }

  /** One build for each approval, four active, one building. */
  lemma BuildsStayBounded(lib: Lib, labels: seq<Label>)
    requires lib.Valid()
    ensures Bounded(Run(lib, labels).disk.file.builds) && Bounded(Run(lib, labels).disk.durable.builds)
  {
    RunSound(lib, labels);
    var d := Run(lib, labels).disk;
    assert ActiveIn(d.file.builds) == set id | id in d.file.builds && Active(d.file.builds[id].stage);
    assert ActiveIn(d.durable.builds) == set id | id in d.durable.builds && Active(d.durable.builds[id].stage);
  }

  /** No durable receipt is ever lost or rewritten, and builds move only forward;
      between power losses that holds of the receipts readers see, too. */
  lemma {:induction false} ReceiptsOnlyGrow(lib: Lib, labels: seq<Label>, k: nat)
    requires lib.Valid() && k <= |labels|
    ensures Grows(Run(lib, labels[..k]).disk.durable, Run(lib, labels).disk.durable)
    ensures (forall i :: k <= i < |labels| ==> !labels[i].LosingPower?) ==>
      Grows(Run(lib, labels[..k]).disk.file, Run(lib, labels).disk.file)
    decreases |labels|
  {
    if k == |labels| {
      assert labels[..k] == labels;
      DiskStays(Run(lib, labels).disk);
    } else {
      var before := labels[..|labels| - 1];
      assert before[..k] == labels[..k];
      ReceiptsOnlyGrow(lib, before, k);
      RunSound(lib, before);
      StepKeeps(lib, Run(lib, before), labels[|labels| - 1]);
      var d, mid, d' := Run(lib, labels[..k]).disk, Run(lib, before).disk, Run(lib, labels).disk;
      GrowsTransitive(d.durable, mid.durable, d'.durable);
      if forall i :: k <= i < |labels| ==> !labels[i].LosingPower? {
        assert forall i :: k <= i < |before| ==> before[i] == labels[i];
        GrowsTransitive(d.file, mid.file, d'.file);
      }
    }
  }

  // Restarts.

  /** A build that was durable when a service stopped. */
  ghost predicate Retired(w: World, id: string) {
    id in w.disk.durable.builds && (w.engine.None? || Terminal(w.disk.durable.builds[id].stage))
  }

  /** What one step gives to the builder. */
  ghost function HandedOut(lib: Lib, w: World, l: Label): seq<Handing> {
    if l.Claiming? && w.engine.Some? && Claim(lib, w.engine.value.mem, w.disk, l.env).work.Some? then
      [Handing(Claim(lib, w.engine.value.mem, w.disk, l.env).work.value, w.engine.value.mem.config.minimum, l.env.current)]
    else []
  }

  /** Only a claim hands out work, at most one build each. */
  lemma OnlyClaimsHandOut(lib: Lib, w: World, l: Label)
    ensures Apply(lib, w, l).handed == w.handed + HandedOut(lib, w, l)
  {
  }

  /** Only a queued build of a service that serves is claimed. */
  lemma ClaimedWasQueued(lib: Lib, w: World, env: Env)
    requires lib.Valid() && WorldSound(lib, w) && w.engine.Some? && Claim(lib, w.engine.value.mem, w.disk, env).work.Some?
    ensures var id := Claim(lib, w.engine.value.mem, w.disk, env).work.value.id;
      id in w.disk.durable.builds && w.disk.durable.builds[id].stage == Queued
  {
    var s, fate := ClaimEffect(lib, w.engine.value.mem, w.disk, env);
  }

  lemma OpenedIsIdle(lib: Lib, w: World, cfg: Config, env: Env, id: string)
    requires WorldSound(lib, w) && id in w.disk.durable.builds
    ensures var w' := ApplyOpening(lib, w, cfg, env); Retired(w', id)
  {
    OpenEffect(lib, w.disk, cfg, env);
    var w' := ApplyOpening(lib, w, cfg, env);
    assert id in w'.disk.durable.builds;
    assert Active(w'.disk.durable.builds[id].stage) ==> id in ActiveIn(w'.disk.durable.builds);
  }

  lemma RetiredStays(lib: Lib, w: World, l: Label, id: string)
    requires lib.Valid() && WorldSound(lib, w) && Retired(w, id)
    ensures Retired(Apply(lib, w, l), id)
  {
    StepKeeps(lib, w, l);
    hide Sound, HistorySound, Handle, Claim, Finish, Open;
    if l.Opening? && w.engine.None? && l.config.hashes.Valid() {
      OpenedIsIdle(lib, w, l.config, l.env, id);
    }
  }

  lemma RetiredIsNotHandedOut(lib: Lib, w: World, l: Label, id: string)
    requires lib.Valid() && WorldSound(lib, w) && Retired(w, id)
    ensures forall h :: h in HandedOut(lib, w, l) ==> h.work.id != id
  {
    if HandedOut(lib, w, l) != [] {
      ClaimedWasQueued(lib, w, l.env);
    }
  }

  /** Whatever was queued or building when a service stopped is never given to
      the builder afterwards. */
  lemma {:induction false} NothingIsRedispatched(lib: Lib, labels: seq<Label>, k: nat, id: string)
    requires lib.Valid() && k <= |labels| && Retired(Run(lib, labels[..k]), id)
    ensures var before, after := Run(lib, labels[..k]), Run(lib, labels);
      && Retired(after, id) && before.handed <= after.handed
      && forall i :: |before.handed| <= i < |after.handed| ==> after.handed[i].work.id != id
    decreases |labels|
  {
    if k == |labels| {
      assert labels[..k] == labels;
    } else {
      var init := labels[..|labels| - 1];
      assert init[..k] == labels[..k];
      NothingIsRedispatched(lib, init, k, id);
      RunSound(lib, init);
      RetiredStays(lib, Run(lib, init), labels[|labels| - 1], id);
      RetiredIsNotHandedOut(lib, Run(lib, init), labels[|labels| - 1], id);
      OnlyClaimsHandOut(lib, Run(lib, init), labels[|labels| - 1]);
    }
  }
}
