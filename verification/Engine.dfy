/** The control service's engine: receipts of proposals, approvals and builds, the
    validator that guards loading them, and what each operation computes. */
module Engine {
  import opened Wrappers
  import opened Json
  import opened Order
  import D = Diff

  /** The longest receipts file that is written or read. */
  const MAX_STATE: nat := 32 * 1024 * 1024

  /** Digests, TOML, path syntax and the serialised length of the receipts. */
  datatype Lib = Lib(
    revision: Json -> string,
    toToml: Json -> Option<string>,
    fromToml: string -> Option<Json>,
    outputPath: string -> bool,
    size: State -> nat)
  {
    /** Digests are well-formed, TOML written from a value reads back as it, and
        no receipts at all fit the file. */
    ghost predicate Valid() {
      && (forall v :: IsHash(revision(v)))
      && (forall v :: toToml(v).Some? ==> fromToml(toToml(v).value) == Some(v))
      && size(EMPTY) <= MAX_STATE
    }
  }

  predicate IsIdentifier(s: string) {
    && 0 < |s| <= 96
    && forall i :: 0 <= i < |s| ==> 'a' <= s[i] <= 'z' || 'A' <= s[i] <= 'Z' || '0' <= s[i] <= '9' || s[i] == '_' || s[i] == '-'
  }

  predicate IsHash(s: string) {
    |s| == 64 && forall i :: 0 <= i < |s| ==> '0' <= s[i] <= '9' || 'a' <= s[i] <= 'f'
  }

  // The deployment.

  datatype Hashes = Hashes(policy: string, compiler: string, inputs: string) {
    predicate Valid() {
      IsHash(policy) && IsHash(compiler) && IsHash(inputs)
    }
  }

  datatype Minimum = Balanced | Strict

  datatype Config = Config(
    hashes: Hashes,
    peers: Json,
    builder: Json,
    source: string,
    serverUid: nat,
    minimum: Minimum)

  /** Everything the policy hash binds, besides the deployment's own revision. */
  function PolicyDocument(cfg: Config, schema: string): Json {
    Obj(map["revision" := Str(cfg.hashes.policy), "peers" := cfg.peers, "builder" := cfg.builder,
            "source" := Str(cfg.source), "server_uid" := Int(cfg.serverUid),
            "minimum_profile" := Str(if cfg.minimum == Balanced then "balanced" else "strict"),
            "schema" := Str(schema)])
  }

  /** What one operation finds outside the engine. */
  datatype Env = Env(
    hashesFresh: bool,            // compiler and builder inputs match the deployment
    schema: string,               // digest of the schema file
    sourceReadable: bool,
    current: Option<Json>,        // the normalised desired source
    normalized: Option<Json>,     // the normalised candidate
    tomlFits: bool,               // the candidate's TOML within its size limit
    responseFits: bool,           // the proposal's response within its size limit
    fate: Fate)

  function CurrentHashes(lib: Lib, cfg: Config, env: Env): Option<Hashes> {
    if env.hashesFresh then
      Some(Hashes(lib.revision(PolicyDocument(cfg, env.schema)), cfg.hashes.compiler, cfg.hashes.inputs))
    else None
  }

  function Current(env: Env): Option<Json> {
    if env.sourceReadable then env.current else None
  }

  /** Sandbox strength: dev, balanced (the default) or strict. */
  function Rank(v: Json): Option<nat> {
    var profile := if v.Get("sandbox").Some? then v.Get("sandbox").value.GetStr("profile") else None;
    match if profile.Some? then profile.value else "balanced"
    case "dev" => Some(0)
    case "balanced" => Some(1)
    case "strict" => Some(2)
    case _ => None
  }

  function Floor(minimum: Minimum): nat {
    if minimum == Balanced then 1 else 2
  }

  /** The candidate's sandbox is at least the deployment's and the base's. */
  predicate Enforced(minimum: Minimum, candidate: Json, base: Json) {
    var r := Rank(candidate);
    r.Some? && r.value >= Floor(minimum) && r.value >= (if Rank(base).Some? then Rank(base).value else 2)
  }

  // The receipts.

  datatype Candidate = Candidate(
    id: string,
    base: string,
    revision: string,
    configuration: Json,
    changes: seq<D.Report>,
    hashes: Hashes,
    baseConfiguration: Json,
    toml: string)

  datatype Approval = Approval(id: string, proposalId: string, base: string, revision: string, hashes: Hashes)

  datatype Stage = Queued | Building | Built | Failed | Unknown

  datatype Build = Build(
    id: string,
    proposalId: string,
    revision: string,
    stage: Stage,
    output: Option<string>,
    error: Option<string>,
    approvalId: string,
    hashes: Hashes)

  datatype Kind = OfProposal | OfApproval | OfBuild

  datatype Record = Record(fingerprint: string, kind: Kind, id: string)

  datatype State = State(
    proposals: map<string, Candidate>,
    approvals: map<string, Approval>,
    builds: map<string, Build>,
    requests: map<string, Record>)

  const EMPTY: State := State(map[], map[], map[], map[])

  predicate Active(stage: Stage) {
    stage == Queued || stage == Building
  }

  // The load-time validator.

  ghost predicate ValidCandidate(lib: Lib, id: string, c: Candidate) {
    && IsIdentifier(id) && id == c.id
    && lib.fromToml(c.toml) == Some(c.configuration)
    && lib.revision(c.configuration) == c.revision
    && lib.revision(c.baseConfiguration) == c.base
    && c.changes == D.Reports("", D.Difference(c.baseConfiguration, c.configuration))
    && c.hashes.Valid()
  }

  predicate ValidApproval(proposals: map<string, Candidate>, id: string, a: Approval) {
    && IsIdentifier(id) && id == a.id && a.proposalId in proposals
    && var p := proposals[a.proposalId];
       a.base == p.base && a.revision == p.revision && a.hashes == p.hashes
  }

  predicate Matches(a: Approval, b: Build) {
    a.proposalId == b.proposalId && a.revision == b.revision && a.hashes == b.hashes
  }

  predicate ValidBuild(lib: Lib, approvals: map<string, Approval>, id: string, b: Build) {
    && IsIdentifier(id) && id == b.id && b.approvalId in approvals
    && Matches(approvals[b.approvalId], b)
    && (b.stage == Built ==> b.output.Some? && lib.outputPath(b.output.value))
    && (b.stage != Built ==> b.output.None?)
  }

  predicate ValidRecord(s: State, rid: string, r: Record) {
    && IsIdentifier(rid) && |rid| <= 64 && IsHash(r.fingerprint)
    && match r.kind
       case OfProposal => r.id in s.proposals
       case OfApproval => r.id in s.approvals
       case OfBuild => r.id in s.builds
  }

  ghost predicate Validate(lib: Lib, s: State) {
    && |s.proposals| <= 64 && |s.requests| <= 1024 && |s.approvals| <= 1024 && |s.builds| <= 1024
    && (forall id {:trigger ValidCandidate(lib, id, s.proposals[id])} :: id in s.proposals ==> ValidCandidate(lib, id, s.proposals[id]))
    && (forall id {:trigger ValidApproval(s.proposals, id, s.approvals[id])} :: id in s.approvals ==> ValidApproval(s.proposals, id, s.approvals[id]))
    && (forall id {:trigger ValidBuild(lib, s.approvals, id, s.builds[id])} :: id in s.builds ==> ValidBuild(lib, s.approvals, id, s.builds[id]))
    && (forall rid {:trigger ValidRecord(s, rid, s.requests[rid])} :: rid in s.requests ==> ValidRecord(s, rid, s.requests[rid]))
  }

  // Operations on the engine's memory and the receipts file.

  datatype Mem = Mem(config: Config, state: State, poisoned: bool)

  datatype Disk = Disk(file: State, durable: State)

  /** An HTTP status, or the id of the record that answers the request. */
  datatype Answer = Served(kind: Kind, id: string) | Refused(status: nat)

  datatype Step = Step(mem: Mem, disk: Disk, answer: Answer)

  function Replace(d: Disk, s: State, fate: Fate): Disk {
    match fate
    case Kept => d
    case Unsynced => d.(file := s)
    case Synced => Disk(s, s)
  }

  predicate Fits(lib: Lib, s: State) {
    lib.size(s) <= MAX_STATE
  }

  /** How publishing `s` ends: receipts over the limit are refused. */
  function Ending(lib: Lib, s: State, fate: Fate): Fate {
    if Fits(lib, s) then fate else Kept
  }

  /** Publish `s`. Failure closes this engine for good: nothing after it is served
      or dispatched from memory that is not on disk. */
  function Publish(lib: Lib, m: Mem, d: Disk, s: State, fate: Fate, answer: Answer): Step {
    var fate := Ending(lib, s, fate);
    if fate == Synced then Step(m.(state := s), Replace(d, s, fate), answer)
    else Step(m.(state := s, poisoned := true), Replace(d, s, fate), Refused(503))
  }

  /** A request id seen before: its own answer again, or a conflict. */
  function Replay(s: State, rid: string, fingerprint: string): Option<Answer> {
    if !IsIdentifier(rid) || |rid| > 64 then Some(Refused(400))
    else if rid in s.requests then
      if s.requests[rid].fingerprint != fingerprint then Some(Refused(409))
      else Some(Served(s.requests[rid].kind, s.requests[rid].id))
    else if |s.requests| >= 1024 then Some(Refused(429))
    else None
  }

  datatype Draft = Draft(requestId: string, base: string, configuration: Json)
  datatype Approve = Approve(requestId: string, proposalId: string, base: string, revision: string, hashes: Hashes)
  datatype BuildRequest = BuildRequest(requestId: string, proposalId: string, approvalId: string, revision: string, hashes: Hashes)

  function HashesDocument(h: Hashes): Json {
    Obj(map["policy" := Str(h.policy), "compiler" := Str(h.compiler), "inputs" := Str(h.inputs)])
  }

  function DraftDocument(r: Draft): Json {
    Arr([Str("/v1/system/proposals"),
         Obj(map["request_id" := Str(r.requestId), "base_revision" := Str(r.base), "configuration" := r.configuration])])
  }

  function ApproveDocument(r: Approve): Json {
    Arr([Str("/v1/system/proposals/" + r.proposalId + "/approve"),
         Obj(map["request_id" := Str(r.requestId), "base_revision" := Str(r.base), "revision" := Str(r.revision),
                 "hashes" := HashesDocument(r.hashes)])])
  }

  function BuildDocument(r: BuildRequest): Json {
    Arr([Str("/v1/system/builds"),
         Obj(map["request_id" := Str(r.requestId), "proposal_id" := Str(r.proposalId), "approval_id" := Str(r.approvalId),
                 "revision" := Str(r.revision), "hashes" := HashesDocument(r.hashes)])])
  }

  /** The candidate a draft becomes, if nothing refuses it. */
  ghost function Drafted(lib: Lib, cfg: Config, s: State, r: Draft, env: Env): Result<Candidate, nat> {
    if |s.proposals| >= 64 then Err(429)
    else if CurrentHashes(lib, cfg, env).None? || Current(env).None? then Err(503)
    else
      var base := Current(env).value;
      if lib.revision(base) != r.base then Err(409)
      else if !Enforced(cfg.minimum, r.configuration, base) then Err(403)
      else if lib.toToml(r.configuration).None? || !env.tomlFits then Err(400)
      else if env.normalized != Some(r.configuration) then Err(422)
      else if !env.responseFits then Err(413)
      else
        Ok(Candidate("p_" + r.requestId, r.base, lib.revision(r.configuration), r.configuration,
                     D.Reports("", D.Difference(base, r.configuration)),
                     CurrentHashes(lib, cfg, env).value, base, lib.toToml(r.configuration).value))
  }

  ghost function Propose(lib: Lib, m: Mem, d: Disk, allowed: bool, r: Draft, env: Env): Step {
    var fp := lib.revision(DraftDocument(r));
    if m.poisoned then Step(m, d, Refused(503))
    else if !allowed then Step(m, d, Refused(403))
    else if Replay(m.state, r.requestId, fp).Some? then Step(m, d, Replay(m.state, r.requestId, fp).value)
    else
      match Drafted(lib, m.config, m.state, r, env)
      case Err(status) => Step(m, d, Refused(status))
      case Ok(c) =>
        Publish(lib, m, d,
                m.state.(proposals := m.state.proposals[c.id := c],
                         requests := m.state.requests[r.requestId := Record(fp, OfProposal, c.id)]),
                env.fate, Served(OfProposal, c.id))
  }

  function Approved(lib: Lib, cfg: Config, s: State, r: Approve, env: Env): Result<Approval, nat> {
    if CurrentHashes(lib, cfg, env).None? || Current(env).None? then Err(503)
    else if r.proposalId !in s.proposals then Err(404)
    else
      var hashes, base, p := CurrentHashes(lib, cfg, env).value, lib.revision(Current(env).value), s.proposals[r.proposalId];
      if !Enforced(cfg.minimum, p.configuration, Current(env).value) then Err(403)
      else if r.base != base || p.base != base || r.revision != p.revision || r.hashes != hashes || p.hashes != hashes then Err(409)
      else Ok(Approval("a_" + r.requestId, r.proposalId, base, p.revision, hashes))
  }

  function ApproveProposal(lib: Lib, m: Mem, d: Disk, allowed: bool, r: Approve, env: Env): Step {
    var fp := lib.revision(ApproveDocument(r));
    if m.poisoned then Step(m, d, Refused(503))
    else if !IsIdentifier(r.proposalId) then Step(m, d, Refused(404))
    else if !allowed then Step(m, d, Refused(403))
    else if Replay(m.state, r.requestId, fp).Some? then Step(m, d, Replay(m.state, r.requestId, fp).value)
    else
      match Approved(lib, m.config, m.state, r, env)
      case Err(status) => Step(m, d, Refused(status))
      case Ok(a) =>
        Publish(lib, m, d,
                m.state.(approvals := m.state.approvals[a.id := a],
                         requests := m.state.requests[r.requestId := Record(fp, OfApproval, a.id)]),
                env.fate, Served(OfApproval, a.id))
  }

  function ActiveBuilds(s: State): set<string> {
    set id | id in s.builds && Active(s.builds[id].stage)
  }

  predicate Funds(s: State, approvalId: string) {
    exists id :: id in s.builds && s.builds[id].approvalId == approvalId
  }

  function Queueable(lib: Lib, cfg: Config, s: State, r: BuildRequest, env: Env): Result<Build, nat> {
    if r.approvalId !in s.approvals then Err(409)
    else if cfg.builder == Null then Err(503)
    else if CurrentHashes(lib, cfg, env).None? || Current(env).None? then Err(503)
    else if r.proposalId !in s.proposals then Err(409)
    else
      var hashes, base := CurrentHashes(lib, cfg, env).value, lib.revision(Current(env).value);
      var a, p := s.approvals[r.approvalId], s.proposals[r.proposalId];
      if !Enforced(cfg.minimum, p.configuration, Current(env).value) then Err(403)
      else if a.proposalId != r.proposalId || a.base != base || a.revision != r.revision || a.hashes != hashes
              || r.hashes != hashes || p.hashes != hashes || p.base != base || p.revision != r.revision then Err(409)
      else if |ActiveBuilds(s)| >= 4 then Err(429)
      else if Funds(s, r.approvalId) then Err(409)
      else Ok(Build("b_" + r.requestId, r.proposalId, r.revision, Queued, None, None, r.approvalId, hashes))
  }

  function QueueBuild(lib: Lib, m: Mem, d: Disk, allowed: bool, r: BuildRequest, env: Env): Step {
    var fp := lib.revision(BuildDocument(r));
    if m.poisoned then Step(m, d, Refused(503))
    else if !allowed then Step(m, d, Refused(403))
    else if Replay(m.state, r.requestId, fp).Some? then Step(m, d, Replay(m.state, r.requestId, fp).value)
    else
      match Queueable(lib, m.config, m.state, r, env)
      case Err(status) => Step(m, d, Refused(status))
      case Ok(b) =>
        Publish(lib, m, d,
                m.state.(builds := m.state.builds[b.id := b],
                         requests := m.state.requests[r.requestId := Record(fp, OfBuild, b.id)]),
                env.fate, Served(OfBuild, b.id))
  }

  /** The end of one build: an output path, or a failure. */
  function Finished(b: Build, output: Option<string>): Build {
    if output.Some? then b.(stage := Built, output := output)
    else b.(stage := Failed, error := Some("build_failed_or_approval_invalidated"))
  }

  function Finish(lib: Lib, m: Mem, d: Disk, id: string, output: Option<string>, fate: Fate): Step {
    if id !in m.state.builds then Step(m, d, Refused(503))
    else
      var s := m.state.(builds := m.state.builds[id := Finished(m.state.builds[id], output)]);
      if m.poisoned then Step(m.(state := s), d, Refused(503))
      else Publish(lib, m, d, s, fate, Served(OfBuild, id))
  }

  function QueuedBuilds(s: State): set<string> {
    set id | id in s.builds && s.builds[id].stage == Queued
  }

  /** What a claim hands to the build worker. */
  datatype Work = Work(id: string, toml: string)

  datatype Claimed = Claimed(mem: Mem, disk: Disk, work: Option<Work>)

  /** Whether a queued build still stands on what was approved. */
  predicate StillApproved(lib: Lib, cfg: Config, b: Build, c: Candidate, env: Env) {
    && CurrentHashes(lib, cfg, env) == Some(b.hashes)
    && env.current.Some? && lib.revision(env.current.value) == c.base
  }

  /** Claim `id`, the first queued build in key order. */
  function ClaimBuild(lib: Lib, m: Mem, d: Disk, id: string, env: Env): Claimed
    requires id in m.state.builds
  {
    var b := m.state.builds[id];
    if !env.sourceReadable then
      var r := Finish(lib, m, d, id, None, env.fate);
      Claimed(r.mem, r.disk, None)
    else if b.proposalId !in m.state.proposals then Claimed(m, d, None)
    else
      var c := m.state.proposals[b.proposalId];
      if !StillApproved(lib, m.config, b, c, env) then
        var r := Finish(lib, m, d, id, None, env.fate);
        Claimed(r.mem, r.disk, None)
      else if m.config.builder == Null then Claimed(m, d, None)
      else
        var s := m.state.(builds := m.state.builds[id := b.(stage := Building)]);
        var r := Publish(lib, m, d, s, env.fate, Served(OfBuild, id));
        Claimed(r.mem, r.disk, if r.answer.Served? then Some(Work(id, c.toml)) else None)
  }

  ghost function Claim(lib: Lib, m: Mem, d: Disk, env: Env): Claimed {
    if m.poisoned || (exists id :: id in m.state.builds && m.state.builds[id].stage == Building) then Claimed(m, d, None)
    else if QueuedBuilds(m.state) == {} then Claimed(m, d, None)
    else
      LeastExists(QueuedBuilds(m.state));
      var id :| IsLeast(id, QueuedBuilds(m.state));
      ClaimBuild(lib, m, d, id, env)
  }

  /** Startup recovery: whatever was queued or building is never dispatched again. */
  function Recovered(s: State): State {
    s.(builds := map id | id in s.builds ::
         if Active(s.builds[id].stage) then
           s.builds[id].(stage := Unknown, error := Some("service_restarted_no_redispatch"))
         else s.builds[id])
  }

  ghost function Open(lib: Lib, cfg: Config, d: Disk, env: Env): (Option<Mem>, Disk) {
    if !Fits(lib, d.file) || !Validate(lib, d.file) then (None, d)
    else
      var s := Recovered(d.file);
      var fate := Ending(lib, s, env.fate);
      (if fate == Synced && CurrentHashes(lib, cfg, env).Some? then Some(Mem(cfg, s, false)) else None,
       Replace(d, s, fate))
  }
}
