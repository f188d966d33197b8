/** Whole runs of the control engine: services that open, serve, crash and open
    again under possibly different deployments, a build worker that claims and
    finishes, publications that fail on either side of the rename, and power
    losses that undo one. */
module EngineRuns {
  import opened Wrappers
  import opened Json
  import opened Order
  import opened Engine
  import opened EngineState

  /** A running service: its memory and the work its builder still holds. */
  datatype Process = Process(mem: Mem, running: set<string>)

  datatype Request = Proposal(draft: Draft) | Approving(approve: Approve) | Building(build: BuildRequest)

  function RequestId(q: Request): string {
    match q
    case Proposal(r) => r.requestId
    case Approving(r) => r.requestId
    case Building(r) => r.requestId
  }

  /** What the fingerprint of a request is the digest of. */
  function Document(q: Request): Json {
    match q
    case Proposal(r) => DraftDocument(r)
    case Approving(r) => ApproveDocument(r)
    case Building(r) => BuildDocument(r)
  }

  /** A request that was answered with a record. */
  datatype Reply = Reply(request: Request, kind: Kind, id: string)

  /** Work given to the builder, with the deployment's minimum and the source
      configuration of that moment. */
  datatype Handing = Handing(work: Work, minimum: Minimum, current: Option<Json>)

  /** The disk and the service, followed by what an outside observer remembers. */
  datatype World = World(disk: Disk, engine: Option<Process>, handed: seq<Handing>, replies: seq<Reply>)

  datatype Label =
    | Serving(allowed: bool, request: Request, env: Env)
    | Claiming(env: Env)
    | Finishing(id: string, output: Option<string>, fate: Fate)
    | Crashing
    | LosingPower
    | Flushing
    | Opening(config: Config, env: Env)

  const START: World := World(Disk(EMPTY, EMPTY), None, [], [])

  ghost function Handle(lib: Lib, m: Mem, d: Disk, allowed: bool, q: Request, env: Env): Step {
    match q
    case Proposal(r) => Propose(lib, m, d, allowed, r, env)
    case Approving(r) => ApproveProposal(lib, m, d, allowed, r, env)
    case Building(r) => QueueBuild(lib, m, d, allowed, r, env)
  }

  ghost function ApplyServing(lib: Lib, w: World, p: Process, allowed: bool, q: Request, env: Env): World {
    var r := Handle(lib, p.mem, w.disk, allowed, q, env);
    w.(disk := r.disk, engine := Some(p.(mem := r.mem)),
       replies := if r.answer.Served? then w.replies + [Reply(q, r.answer.kind, r.answer.id)] else w.replies)
  }

  ghost function ApplyClaiming(lib: Lib, w: World, p: Process, env: Env): World {
    var r := Claim(lib, p.mem, w.disk, env);
    if r.work.Some? then
      World(r.disk, Some(Process(r.mem, p.running + {r.work.value.id})),
            w.handed + [Handing(r.work.value, p.mem.config.minimum, env.current)], w.replies)
    else w.(disk := r.disk, engine := Some(p.(mem := r.mem)))
  }

  function ApplyFinishing(lib: Lib, w: World, p: Process, id: string, output: Option<string>, fate: Fate): World {
    var r := Finish(lib, p.mem, w.disk, id, output, fate);
    w.(disk := r.disk, engine := Some(Process(r.mem, p.running - {id})))
  }

  ghost function ApplyOpening(lib: Lib, w: World, cfg: Config, env: Env): World {
    var (m, d) := Open(lib, cfg, w.disk, env);
    w.(disk := d, engine := if m.Some? then Some(Process(m.value, {})) else None)
  }

  /** One step. A label that is not enabled changes nothing: a second service
      cannot take the writer lock, only handed-out work is finished, and the
      builder reports only well-formed output paths. */
  ghost function Apply(lib: Lib, w: World, l: Label): World {
    match l
    case LosingPower => w.(engine := None, disk := Disk(w.disk.durable, w.disk.durable))
    case Flushing => w.(disk := Disk(w.disk.file, w.disk.file))
    case Crashing => w.(engine := None)
    case Opening(cfg, env) => if w.engine.None? && cfg.hashes.Valid() then ApplyOpening(lib, w, cfg, env) else w
    case Serving(allowed, q, env) => if w.engine.Some? then ApplyServing(lib, w, w.engine.value, allowed, q, env) else w
    case Claiming(env) => if w.engine.Some? then ApplyClaiming(lib, w, w.engine.value, env) else w
    case Finishing(id, output, fate) =>
      if w.engine.Some? && id in w.engine.value.running && (output.Some? ==> lib.outputPath(output.value)) then
        ApplyFinishing(lib, w, w.engine.value, id, output, fate)
      else w
  }

  ghost function Run(lib: Lib, labels: seq<Label>): World {
    if labels == [] then START
    else Apply(lib, Run(lib, labels[..|labels| - 1]), labels[|labels| - 1])
  }

  // What every run keeps.

  ghost predicate DiskSound(lib: Lib, d: Disk) {
    && Sound(lib, d.file) && Sound(lib, d.durable) && Grows(d.durable, d.file)
    && Fits(lib, d.file) && Fits(lib, d.durable)
  }

  /** A service that serves has published everything it holds. */
  predicate Published(m: Mem, d: Disk) {
    !m.poisoned ==> d == Disk(m.state, m.state)
  }

  predicate RunningIn(running: set<string>, builds: map<string, Build>) {
    forall id :: id in running ==> id in builds && builds[id].stage == Stage.Building
  }

  ghost predicate ProcessSound(d: Disk, p: Process) {
    && Published(p.mem, d) && p.mem.config.hashes.Valid()
    && (!p.mem.poisoned ==> RunningIn(p.running, p.mem.state.builds))
  }

  predicate Dispatched(handed: seq<Handing>, builds: map<string, Build>) {
    forall i :: 0 <= i < |handed| ==> handed[i].work.id in builds && builds[handed[i].work.id].stage != Queued
  }

  predicate HandedOnce(handed: seq<Handing>) {
    forall i, j :: 0 <= i < j < |handed| ==> handed[i].work.id != handed[j].work.id
  }

  predicate Answered(lib: Lib, e: Reply, requests: map<string, Record>) {
    && RequestId(e.request) in requests
    && requests[RequestId(e.request)] == Record(lib.revision(Document(e.request)), e.kind, e.id)
  }

  predicate Logged(lib: Lib, replies: seq<Reply>, requests: map<string, Record>) {
    forall i :: 0 <= i < |replies| ==> Answered(lib, replies[i], requests)
  }

  ghost predicate HistorySound(lib: Lib, w: World) {
    && Dispatched(w.handed, w.disk.file.builds) && Dispatched(w.handed, w.disk.durable.builds)
    && HandedOnce(w.handed)
    && Logged(lib, w.replies, w.disk.file.requests) && Logged(lib, w.replies, w.disk.durable.requests)
  }

  ghost predicate WorldSound(lib: Lib, w: World) {
    && DiskSound(lib, w.disk)
    && (w.engine.Some? ==> ProcessSound(w.disk, w.engine.value))
    && HistorySound(lib, w)
  }

  // One critical section.

  /** Publication of `s`, successful or not; a section that changes nothing
      publishes what is already there. */
  ghost predicate Moved(lib: Lib, m: Mem, d: Disk, m': Mem, d': Disk, s: State, fate: Fate) {
    && Sound(lib, s) && Grows(m.state, s) && (fate != Kept ==> Fits(lib, s))
    && m' == m.(state := s, poisoned := fate != Synced) && d' == Replace(d, s, fate)
  }

  lemma GrowsReflexive(s: State)
    ensures Grows(s, s)
  {
    BuildsStay(s.builds);
  }

  lemma MovedKeeps(lib: Lib, m: Mem, d: Disk, m': Mem, d': Disk, s: State, fate: Fate)
    requires DiskSound(lib, d) && Published(m, d) && !m.poisoned && Moved(lib, m, d, m', d', s, fate)
    ensures DiskSound(lib, d') && Published(m', d')
    ensures Grows(d.file, d'.file) && Grows(d.durable, d'.durable)
  {
    GrowsReflexive(m.state);
    GrowsReflexive(s);
  }

  lemma StillDispatched(handed: seq<Handing>, builds: map<string, Build>, builds': map<string, Build>)
    requires Dispatched(handed, builds) && BuildsMove(builds, builds')
    ensures Dispatched(handed, builds')
  {
  }

  lemma StillLogged(lib: Lib, replies: seq<Reply>, requests: map<string, Record>, requests': map<string, Record>)
    requires Logged(lib, replies, requests) && Extends(requests, requests')
    ensures Logged(lib, replies, requests')
  {
  }

  lemma HistoryStays(lib: Lib, w: World, d: Disk)
    requires HistorySound(lib, w) && Grows(w.disk.file, d.file) && Grows(w.disk.durable, d.durable)
    ensures HistorySound(lib, w.(disk := d))
  {
    StillDispatched(w.handed, w.disk.file.builds, d.file.builds);
    StillDispatched(w.handed, w.disk.durable.builds, d.durable.builds);
    StillLogged(lib, w.replies, w.disk.file.requests, d.file.requests);
    StillLogged(lib, w.replies, w.disk.durable.requests, d.durable.requests);
  }

  ghost predicate Ready(lib: Lib, m: Mem, d: Disk) {
    lib.Valid() && !m.poisoned && Sound(lib, m.state) && Fits(lib, m.state) && m.config.hashes.Valid() && d == Disk(m.state, m.state)
  }

  lemma NothingMoves(lib: Lib, m: Mem, d: Disk)
    requires Ready(lib, m, d)
    ensures Moved(lib, m, d, m, d, m.state, Synced) && Extends(m.state.builds, m.state.builds)
  {
    GrowsReflexive(m.state);
  }

  lemma ProposeEffect(lib: Lib, m: Mem, d: Disk, allowed: bool, r: Draft, env: Env) returns (s: State, fate: Fate)
    requires Ready(lib, m, d)
    ensures var st := Propose(lib, m, d, allowed, r, env);
      && Moved(lib, m, d, st.mem, st.disk, s, fate) && Extends(m.state.builds, s.builds)
      && (st.answer.Served? ==> fate == Synced && Answered(lib, Reply(Proposal(r), st.answer.kind, st.answer.id), s.requests))
  {
    var fp := lib.revision(DraftDocument(r));
    if allowed && Replay(m.state, r.requestId, fp).None? && Drafted(lib, m.config, m.state, r, env).Ok? {
      DraftKeeps(lib, m.config, m.state, r, env, fp);
      s := WithProposal(m.state, r.requestId, fp, Drafted(lib, m.config, m.state, r, env).value);
      fate := Ending(lib, s, env.fate);
    } else {
      NothingMoves(lib, m, d);
      s, fate := m.state, Synced;
    }
  }

  lemma ApproveEffect(lib: Lib, m: Mem, d: Disk, allowed: bool, r: Approve, env: Env) returns (s: State, fate: Fate)
    requires Ready(lib, m, d)
    ensures var st := ApproveProposal(lib, m, d, allowed, r, env);
      && Moved(lib, m, d, st.mem, st.disk, s, fate) && Extends(m.state.builds, s.builds)
      && (st.answer.Served? ==> fate == Synced && Answered(lib, Reply(Approving(r), st.answer.kind, st.answer.id), s.requests))
  {
    var fp := lib.revision(ApproveDocument(r));
    if IsIdentifier(r.proposalId) && allowed && Replay(m.state, r.requestId, fp).None? && Approved(lib, m.config, m.state, r, env).Ok? {
      ApproveKeeps(lib, m.config, m.state, r, env, fp);
      s := WithApproval(m.state, r.requestId, fp, Approved(lib, m.config, m.state, r, env).value);
      fate := Ending(lib, s, env.fate);
    } else {
      NothingMoves(lib, m, d);
      s, fate := m.state, Synced;
    }
  }

  lemma QueueEffect(lib: Lib, m: Mem, d: Disk, allowed: bool, r: BuildRequest, env: Env) returns (s: State, fate: Fate)
    requires Ready(lib, m, d)
    ensures var st := QueueBuild(lib, m, d, allowed, r, env);
      && Moved(lib, m, d, st.mem, st.disk, s, fate) && Extends(m.state.builds, s.builds)
      && (st.answer.Served? ==> fate == Synced && Answered(lib, Reply(Request.Building(r), st.answer.kind, st.answer.id), s.requests))
  {
    var fp := lib.revision(BuildDocument(r));
    if allowed && Replay(m.state, r.requestId, fp).None? && Queueable(lib, m.config, m.state, r, env).Ok? {
      var b := Queueable(lib, m.config, m.state, r, env).value;
      QueueKeeps(lib, m.config, m.state, r, env, fp);
      s := WithBuild(m.state, r.requestId, fp, b);
      fate := Ending(lib, s, env.fate);
      FreshName(m.state.requests, OfBuild, m.state.builds.Keys, r.requestId);
      UpdatedKeys(m.state.builds, b.id, b);
    } else {
      NothingMoves(lib, m, d);
      s, fate := m.state, Synced;
    }
  }

  lemma ServeEffect(lib: Lib, m: Mem, d: Disk, allowed: bool, q: Request, env: Env) returns (s: State, fate: Fate)
    requires Ready(lib, m, d)
    ensures var st := Handle(lib, m, d, allowed, q, env);
      && Moved(lib, m, d, st.mem, st.disk, s, fate) && Extends(m.state.builds, s.builds)
      && (st.answer.Served? ==> fate == Synced && Answered(lib, Reply(q, st.answer.kind, st.answer.id), s.requests))
  {
    match q
    case Proposal(r) => s, fate := ProposeEffect(lib, m, d, allowed, r, env);
    case Approving(r) => s, fate := ApproveEffect(lib, m, d, allowed, r, env);
    case Building(r) => s, fate := QueueEffect(lib, m, d, allowed, r, env);
  }

  predicate Busy(builds: map<string, Build>) {
    exists id :: id in builds && builds[id].stage == Stage.Building
  }

  lemma FinishEffect(lib: Lib, m: Mem, d: Disk, id: string, output: Option<string>, fate: Fate) returns (s: State, ending: Fate)
    requires Ready(lib, m, d) && id in m.state.builds && Active(m.state.builds[id].stage)
    requires output.Some? ==> lib.outputPath(output.value)
    ensures var st := Finish(lib, m, d, id, output, fate); Moved(lib, m, d, st.mem, st.disk, s, ending)
    ensures forall other :: other in m.state.builds && other != id ==> other in s.builds && s.builds[other] == m.state.builds[other]
  {
    assert ValidBuild(lib, m.state.approvals, id, m.state.builds[id]);
    var b := Finished(m.state.builds[id], output);
    MoveKeeps(lib, m.state, b);
    s, ending := WithStage(m.state, b), Ending(lib, WithStage(m.state, b), fate);
  }

  lemma ClaimBuildEffect(lib: Lib, m: Mem, d: Disk, id: string, env: Env) returns (s: State, fate: Fate)
    requires Ready(lib, m, d) && id in m.state.builds && m.state.builds[id].stage == Queued && !Busy(m.state.builds)
    ensures var r := ClaimBuild(lib, m, d, id, env);
      && Moved(lib, m, d, r.mem, r.disk, s, fate)
      && (r.work.Some? ==> fate == Synced && r.work.value.id == id && id in s.builds && s.builds[id].stage == Stage.Building)
  {
    var r := ClaimBuild(lib, m, d, id, env);
    var b := m.state.builds[id];
    assert ValidBuild(lib, m.state.approvals, id, b);
    if r.mem == m && r.disk == d && r.work.None? {
      NothingMoves(lib, m, d);
      s, fate := m.state, Synced;
    } else if !env.sourceReadable || (b.proposalId in m.state.proposals && !StillApproved(lib, m.config, b, m.state.proposals[b.proposalId], env)) {
      s, fate := FinishEffect(lib, m, d, id, None, env.fate);
    } else {
      var b' := b.(stage := Stage.Building);
      MoveKeeps(lib, m.state, b');
      s, fate := WithStage(m.state, b'), Ending(lib, WithStage(m.state, b'), env.fate);
    }
  }

  lemma ClaimEffect(lib: Lib, m: Mem, d: Disk, env: Env) returns (s: State, fate: Fate)
    requires Ready(lib, m, d)
    ensures var r := Claim(lib, m, d, env);
      && Moved(lib, m, d, r.mem, r.disk, s, fate)
      && (Busy(m.state.builds) ==> s == m.state && r.work.None?)
      && (r.work.Some? ==>
            && fate == Synced && r.work.value.id in m.state.builds && m.state.builds[r.work.value.id].stage == Queued
            && r.work.value.id in s.builds && s.builds[r.work.value.id].stage == Stage.Building)
  {
    if Busy(m.state.builds) || QueuedBuilds(m.state) == {} {
      NothingMoves(lib, m, d);
      s, fate := m.state, Synced;
    } else {
      LeastExists(QueuedBuilds(m.state));
      var id :| IsLeast(id, QueuedBuilds(m.state)) && Claim(lib, m, d, env) == ClaimBuild(lib, m, d, id, env);
      s, fate := ClaimBuildEffect(lib, m, d, id, env);
    }
  }

  /** Recovery writes a sound image that extends both the file and what is durable. */
  lemma RecoveryGrows(lib: Lib, d: Disk)
    requires DiskSound(lib, d)
    ensures var s := Recovered(d.file);
      Sound(lib, s) && Grows(d.file, s) && Grows(d.durable, s) && ActiveIn(s.builds) == {}
  {
    RecoverKeeps(lib, d.file);
    GrowsTransitive(d.durable, d.file, Recovered(d.file));
  }

  lemma ReplacedKeeps(lib: Lib, d: Disk, s: State, fate: Fate)
    requires DiskSound(lib, d) && Sound(lib, s) && Grows(d.file, s) && Grows(d.durable, s) && (fate != Kept ==> Fits(lib, s))
    ensures var d' := Replace(d, s, fate); DiskSound(lib, d') && Grows(d.file, d'.file) && Grows(d.durable, d'.durable)
  {
    GrowsReflexive(d.durable);
    GrowsReflexive(d.file);
    GrowsReflexive(s);
  }

  /** Opening accepts every image the engine leaves; it fails only when recovery
      makes it too long or cannot be published, or the deployment drifted. */
  lemma OpenEffect(lib: Lib, d: Disk, cfg: Config, env: Env)
    requires DiskSound(lib, d)
    ensures var (m, d') := Open(lib, cfg, d, env);
      && DiskSound(lib, d') && Grows(d.file, d'.file) && Grows(d.durable, d'.durable)
      && (m.Some? <==> Fits(lib, Recovered(d.file)) && env.fate == Synced && CurrentHashes(lib, cfg, env).Some?)
      && (m.Some? ==> m == Some(Mem(cfg, d'.durable, false)) && d'.file == d'.durable && ActiveIn(d'.durable.builds) == {})
  {
    hide Sound, Validate, Recovered, Grows;
    SoundValidates(lib, d.file);
    RecoveryGrows(lib, d);
    ReplacedKeeps(lib, d, Recovered(d.file), Ending(lib, Recovered(d.file), env.fate));
  }

  // One step of the world.

  /** Neither image loses or rewrites anything. */
  ghost predicate DiskGrows(d: Disk, d': Disk) {
    Grows(d.file, d'.file) && Grows(d.durable, d'.durable)
  }

  lemma DiskStays(d: Disk)
    ensures DiskGrows(d, d)
  {
    GrowsReflexive(d.file);
    GrowsReflexive(d.durable);
  }

  lemma ServingKeeps(lib: Lib, w: World, allowed: bool, q: Request, env: Env)
    requires lib.Valid() && WorldSound(lib, w) && w.engine.Some?
    ensures var w' := ApplyServing(lib, w, w.engine.value, allowed, q, env);
      WorldSound(lib, w') && DiskGrows(w.disk, w'.disk) && w'.handed == w.handed
  {
    var p := w.engine.value;
    if p.mem.poisoned {
      DiskStays(w.disk);
    } else {
      var st := Handle(lib, p.mem, w.disk, allowed, q, env);
      var s, fate := ServeEffect(lib, p.mem, w.disk, allowed, q, env);
      MovedKeeps(lib, p.mem, w.disk, st.mem, st.disk, s, fate);
      HistoryStays(lib, w, st.disk);
    }
  }

  lemma FinishingPoisoned(lib: Lib, w: World, id: string, output: Option<string>, fate: Fate)
    requires WorldSound(lib, w) && w.engine.Some? && w.engine.value.mem.poisoned
    ensures var w' := ApplyFinishing(lib, w, w.engine.value, id, output, fate); WorldSound(lib, w') && w'.disk == w.disk
  {
  }

  lemma FinishingKeeps(lib: Lib, w: World, id: string, output: Option<string>, fate: Fate)
    requires lib.Valid() && WorldSound(lib, w) && w.engine.Some? && id in w.engine.value.running
    requires output.Some? ==> lib.outputPath(output.value)
    ensures var w' := ApplyFinishing(lib, w, w.engine.value, id, output, fate);
      WorldSound(lib, w') && DiskGrows(w.disk, w'.disk)
  {
    var p := w.engine.value;
    if p.mem.poisoned {
      FinishingPoisoned(lib, w, id, output, fate);
      DiskStays(w.disk);
    } else {
      var st := Engine.Finish(lib, p.mem, w.disk, id, output, fate);
      var s, ending := FinishEffect(lib, p.mem, w.disk, id, output, fate);
      assert RunningIn(p.running - {id}, s.builds);
      MovedKeeps(lib, p.mem, w.disk, st.mem, st.disk, s, ending);
      HistoryStays(lib, w, st.disk);
    }
  }

  /** Work newly handed out was queued until now, so it was never handed out. */
  lemma HandingIsNew(handed: seq<Handing>, builds: map<string, Build>, h: Handing)
    requires HandedOnce(handed) && Dispatched(handed, builds)
    requires h.work.id in builds && builds[h.work.id].stage == Queued
    ensures HandedOnce(handed + [h])
  {
  }

  lemma HandedDispatched(handed: seq<Handing>, builds: map<string, Build>, h: Handing)
    requires Dispatched(handed, builds) && h.work.id in builds && builds[h.work.id].stage == Stage.Building
    ensures Dispatched(handed + [h], builds)
  {
  }

  lemma ClaimingKeeps(lib: Lib, w: World, env: Env)
    requires lib.Valid() && WorldSound(lib, w) && w.engine.Some?
    ensures var w' := ApplyClaiming(lib, w, w.engine.value, env);
      WorldSound(lib, w') && DiskGrows(w.disk, w'.disk)
  {
    var p := w.engine.value;
    if p.mem.poisoned {
      DiskStays(w.disk);
    } else {
      var r := Claim(lib, p.mem, w.disk, env);
      var s, fate := ClaimEffect(lib, p.mem, w.disk, env);
      MovedKeeps(lib, p.mem, w.disk, r.mem, r.disk, s, fate);
      HistoryStays(lib, w, r.disk);
      assert RunningIn(p.running, s.builds);
      if r.work.Some? {
        var h := Handing(r.work.value, p.mem.config.minimum, env.current);
        HandingIsNew(w.handed, p.mem.state.builds, h);
        HandedDispatched(w.handed, s.builds, h);
      }
    }
  }

  lemma OpeningKeeps(lib: Lib, w: World, cfg: Config, env: Env)
    requires WorldSound(lib, w) && cfg.hashes.Valid()
    ensures var w' := ApplyOpening(lib, w, cfg, env);
      WorldSound(lib, w') && DiskGrows(w.disk, w'.disk) && w'.handed == w.handed
  {
    OpenEffect(lib, w.disk, cfg, env);
    HistoryStays(lib, w, Open(lib, cfg, w.disk, env).1);
  }

  lemma DiskStepKeeps(lib: Lib, w: World, l: Label)
    requires WorldSound(lib, w) && (l.LosingPower? || l.Flushing? || l.Crashing?)
    ensures var w' := Apply(lib, w, l);
      && WorldSound(lib, w') && Grows(w.disk.durable, w'.disk.durable)
      && (!l.LosingPower? ==> Grows(w.disk.file, w'.disk.file))
  {
    GrowsReflexive(w.disk.durable);
    GrowsReflexive(w.disk.file);
  }

  lemma StepKeeps(lib: Lib, w: World, l: Label)
    requires lib.Valid() && WorldSound(lib, w)
    ensures var w' := Apply(lib, w, l);
      && WorldSound(lib, w') && Grows(w.disk.durable, w'.disk.durable)
      && (!l.LosingPower? ==> Grows(w.disk.file, w'.disk.file))
  {
    DiskStays(w.disk);
    match l
    case LosingPower => DiskStepKeeps(lib, w, l);
    case Flushing => DiskStepKeeps(lib, w, l);
    case Crashing => DiskStepKeeps(lib, w, l);
    case Opening(cfg, env) => if w.engine.None? && cfg.hashes.Valid() { OpeningKeeps(lib, w, cfg, env); }
    case Serving(allowed, q, env) => if w.engine.Some? { ServingKeeps(lib, w, allowed, q, env); }
    case Claiming(env) => if w.engine.Some? { ClaimingKeeps(lib, w, env); }
    case Finishing(id, output, fate) =>
      if w.engine.Some? && id in w.engine.value.running && (output.Some? ==> lib.outputPath(output.value)) {
        FinishingKeeps(lib, w, id, output, fate);
      }
  }

  lemma StartSound(lib: Lib)
    requires lib.Valid()
    ensures WorldSound(lib, START)
  {
    GrowsReflexive(EMPTY);
  }

  lemma {:induction false} RunSound(lib: Lib, labels: seq<Label>)
    requires lib.Valid()
    ensures WorldSound(lib, Run(lib, labels))
  {
    if labels == [] {
      StartSound(lib);
    } else {
      RunSound(lib, labels[..|labels| - 1]);
      StepKeeps(lib, Run(lib, labels[..|labels| - 1]), labels[|labels| - 1]);
    }
  }
}
