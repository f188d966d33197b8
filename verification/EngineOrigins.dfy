/** Where receipts come from, and what follows when the documents digested during
    a run have distinct digests: one request for each request id, and no builder
    input weaker than the sandbox policy, although the engine compares only
    digests. */
module EngineOrigins {
  import opened Wrappers
  import opened Json
  import opened Order
  import opened Engine
  import opened EngineState
  import opened EngineRuns
  import T = EngineTheorems

  // The documents of a run.

  function EnvOf(l: Label): Option<Env> {
    match l
    case Serving(_, _, env) => Some(env)
    case Claiming(env) => Some(env)
    case Opening(_, env) => Some(env)
    case _ => None
  }

  ghost predicate OfRequest(labels: seq<Label>, v: Json) {
    exists i :: 0 <= i < |labels| && labels[i].Serving? && v == Document(labels[i].request)
  }

  ghost predicate OfSource(labels: seq<Label>, v: Json) {
    exists i :: 0 <= i < |labels| && EnvOf(labels[i]).Some? && EnvOf(labels[i]).value.current == Some(v)
  }

  ghost predicate OfPolicy(labels: seq<Label>, v: Json) {
    exists i, j ::
      && 0 <= i < |labels| && labels[i].Opening? && 0 <= j < |labels| && EnvOf(labels[j]).Some?
      && v == PolicyDocument(labels[i].config, EnvOf(labels[j]).value.schema)
  }

  /** The requests, the source configurations and the policies of the run. */
  ghost predicate Digested(labels: seq<Label>, v: Json) {
    OfRequest(labels, v) || OfSource(labels, v) || OfPolicy(labels, v)
  }

  ghost predicate NoCollisions(lib: Lib, labels: seq<Label>) {
    forall v, w :: Digested(labels, v) && Digested(labels, w) && lib.revision(v) == lib.revision(w) ==> v == w
  }

  // Documents determine what they stand for.

  lemma DraftsDiffer(r: Draft, r': Draft)
    requires DraftDocument(r) == DraftDocument(r')
    ensures r == r'
  {
    var m, m' := DraftDocument(r).items[1].fields, DraftDocument(r').items[1].fields;
    assert m["request_id"] == m'["request_id"] && m["base_revision"] == m'["base_revision"] && m["configuration"] == m'["configuration"];
  }

  lemma HashesDiffer(h: Hashes, h': Hashes)
    requires HashesDocument(h) == HashesDocument(h')
    ensures h == h'
  {
    var m, m' := HashesDocument(h).fields, HashesDocument(h').fields;
    assert m["policy"] == m'["policy"] && m["compiler"] == m'["compiler"] && m["inputs"] == m'["inputs"];
  }

  lemma AffixesDiffer(a: string, b: string, before: string, after: string)
    requires before + a + after == before + b + after
    ensures a == b
  {
    var x, y := before + a + after, before + b + after;
    assert a == x[|before|..|x| - |after|] && b == y[|before|..|y| - |after|];
  }

  lemma ApprovesDiffer(r: Approve, r': Approve)
    requires ApproveDocument(r) == ApproveDocument(r')
    ensures r == r'
  {
    assert ApproveDocument(r).items[0] == ApproveDocument(r').items[0];
    AffixesDiffer(r.proposalId, r'.proposalId, "/v1/system/proposals/", "/approve");
    var m, m' := ApproveDocument(r).items[1].fields, ApproveDocument(r').items[1].fields;
    assert m["request_id"] == m'["request_id"] && m["base_revision"] == m'["base_revision"]
      && m["revision"] == m'["revision"] && m["hashes"] == m'["hashes"];
    HashesDiffer(r.hashes, r'.hashes);
  }

  lemma BuildRequestsDiffer(r: BuildRequest, r': BuildRequest)
    requires BuildDocument(r) == BuildDocument(r')
    ensures r == r'
  {
    var m, m' := BuildDocument(r).items[1].fields, BuildDocument(r').items[1].fields;
    assert m["request_id"] == m'["request_id"] && m["proposal_id"] == m'["proposal_id"] && m["approval_id"] == m'["approval_id"]
      && m["revision"] == m'["revision"] && m["hashes"] == m'["hashes"];
    HashesDiffer(r.hashes, r'.hashes);
  }

  /** Different requests, of the same route or not, have different documents. */
  lemma RequestsDiffer(q: Request, q': Request)
    requires Document(q) == Document(q')
    ensures q == q'
  {
    var route, route' := Document(q).items[0].s, Document(q').items[0].s;
    assert route == route';
    assert q.Proposal? ==> |route| == 20;
    assert q'.Proposal? ==> |route'| == 20;
    assert q.Building? ==> |route| == 17;
    assert q'.Building? ==> |route'| == 17;
    match (q, q')
    case (Proposal(r), Proposal(r')) => DraftsDiffer(r, r');
    case (Approving(r), Approving(r')) => ApprovesDiffer(r, r');
    case (Building(r), Building(r')) => BuildRequestsDiffer(r, r');
    case (_, _) =>
  }

  lemma PoliciesDiffer(cfg: Config, schema: string, cfg': Config, schema': string)
    requires PolicyDocument(cfg, schema) == PolicyDocument(cfg', schema')
    ensures cfg.minimum == cfg'.minimum
  {
    var m, m' := PolicyDocument(cfg, schema).fields, PolicyDocument(cfg', schema').fields;
    assert m["minimum_profile"] == m'["minimum_profile"];
    assert |"balanced"| != |"strict"|;
  }

  // Origins.

  /** The candidate was accepted by a service of deployment `cfg` that found `env`. */
  predicate Origin(lib: Lib, cfg: Config, env: Env, c: Candidate) {
    && CurrentHashes(lib, cfg, env) == Some(c.hashes) && Current(env) == Some(c.baseConfiguration)
    && Enforced(cfg.minimum, c.configuration, c.baseConfiguration)
  }

  ghost predicate Vouched(lib: Lib, labels: seq<Label>, c: Candidate) {
    exists i, j ::
      && 0 <= i < |labels| && labels[i].Opening? && 0 <= j < |labels| && labels[j].Serving?
      && Origin(lib, labels[i].config, labels[j].env, c)
  }

  ghost predicate AllVouched(lib: Lib, labels: seq<Label>, proposals: map<string, Candidate>) {
    forall id :: id in proposals ==> Vouched(lib, labels, proposals[id])
  }

  ghost predicate Deployed(labels: seq<Label>, cfg: Config) {
    exists i :: 0 <= i < |labels| && labels[i].Opening? && labels[i].config == cfg
  }

  ghost predicate Asked(labels: seq<Label>, q: Request) {
    exists i :: 0 <= i < |labels| && labels[i].Serving? && labels[i].request == q
  }

  ghost predicate Traced(lib: Lib, labels: seq<Label>, w: World) {
    && (w.engine.Some? ==> Deployed(labels, w.engine.value.mem.config))
    && AllVouched(lib, labels, w.disk.file.proposals) && AllVouched(lib, labels, w.disk.durable.proposals)
    && forall i :: 0 <= i < |w.replies| ==> Asked(labels, w.replies[i].request)
  }

  lemma StillVouched(lib: Lib, labels: seq<Label>, l: Label, c: Candidate)
    requires Vouched(lib, labels, c)
    ensures Vouched(lib, labels + [l], c)
  {
    var i, j :| && 0 <= i < |labels| && labels[i].Opening? && 0 <= j < |labels| && labels[j].Serving?
                && Origin(lib, labels[i].config, labels[j].env, c);
    var more := labels + [l];
    assert more[i] == labels[i] && more[j] == labels[j];
  }

  lemma StillAllVouched(lib: Lib, labels: seq<Label>, l: Label, proposals: map<string, Candidate>)
    requires AllVouched(lib, labels, proposals)
    ensures AllVouched(lib, labels + [l], proposals)
  {
    forall id | id in proposals
      ensures Vouched(lib, labels + [l], proposals[id])
    {
      StillVouched(lib, labels, l, proposals[id]);
    }
  }

  lemma StillDeployed(labels: seq<Label>, l: Label, cfg: Config)
    requires Deployed(labels, cfg)
    ensures Deployed(labels + [l], cfg)
  {
    var i :| 0 <= i < |labels| && labels[i].Opening? && labels[i].config == cfg;
    assert (labels + [l])[i] == labels[i];
  }

  lemma StillAsked(labels: seq<Label>, l: Label, q: Request)
    requires Asked(labels, q)
    ensures Asked(labels + [l], q)
  {
    var i :| 0 <= i < |labels| && labels[i].Serving? && labels[i].request == q;
    assert (labels + [l])[i] == labels[i];
  }

  lemma StillTraced(lib: Lib, labels: seq<Label>, l: Label, w: World)
    requires Traced(lib, labels, w)
    ensures Traced(lib, labels + [l], w)
  {
    if w.engine.Some? {
      StillDeployed(labels, l, w.engine.value.mem.config);
    }
    StillAllVouched(lib, labels, l, w.disk.file.proposals);
    StillAllVouched(lib, labels, l, w.disk.durable.proposals);
    forall i | 0 <= i < |w.replies|
      ensures Asked(labels + [l], w.replies[i].request)
    {
      StillAsked(labels, l, w.replies[i].request);
    }
  }

  /** The disk holds nothing but what it held and what the service now holds. */
  predicate Wrote(d: Disk, d': Disk, s: State) {
    (d'.file == d.file || d'.file == s) && (d'.durable == d.durable || d'.durable == s)
  }

  lemma DraftedHasOrigin(lib: Lib, cfg: Config, s: State, r: Draft, env: Env)
    requires Drafted(lib, cfg, s, r, env).Ok?
    ensures Origin(lib, cfg, env, Drafted(lib, cfg, s, r, env).value)
  {
  }

  /** Candidates of `after` were in `before` or come from `cfg` and `env`. */
  predicate Added(lib: Lib, cfg: Config, env: Env, before: map<string, Candidate>, after: map<string, Candidate>) {
    forall id :: id in after ==> (id in before && after[id] == before[id]) || Origin(lib, cfg, env, after[id])
  }

  lemma PublishWrites(lib: Lib, m: Mem, d: Disk, s: State, fate: Fate, answer: Answer)
    ensures var st := Publish(lib, m, d, s, fate, answer);
      Wrote(d, st.disk, s) && st.mem.state == s && st.mem.config == m.config
  {
  }

  lemma ProposingWrites(lib: Lib, m: Mem, d: Disk, allowed: bool, r: Draft, env: Env)
    ensures var st := Propose(lib, m, d, allowed, r, env);
      && Wrote(d, st.disk, st.mem.state) && st.mem.config == m.config && (m.poisoned ==> st.disk == d)
      && Added(lib, m.config, env, m.state.proposals, st.mem.state.proposals)
  {
    var fp := lib.revision(DraftDocument(r));
    if !m.poisoned && allowed && Replay(m.state, r.requestId, fp).None? && Drafted(lib, m.config, m.state, r, env).Ok? {
      var c := Drafted(lib, m.config, m.state, r, env).value;
      DraftedHasOrigin(lib, m.config, m.state, r, env);
      PublishWrites(lib, m, d, WithProposal(m.state, r.requestId, fp, c), env.fate, Served(OfProposal, c.id));
      assert Propose(lib, m, d, allowed, r, env)
          == Publish(lib, m, d, WithProposal(m.state, r.requestId, fp, c), env.fate, Served(OfProposal, c.id));
    } else {
      assert Propose(lib, m, d, allowed, r, env).mem == m && Propose(lib, m, d, allowed, r, env).disk == d;
    }
  }

  lemma ApprovingWrites(lib: Lib, m: Mem, d: Disk, allowed: bool, r: Approve, env: Env)
    ensures var st := ApproveProposal(lib, m, d, allowed, r, env);
      && Wrote(d, st.disk, st.mem.state) && st.mem.config == m.config && (m.poisoned ==> st.disk == d)
      && st.mem.state.proposals == m.state.proposals
  {
  }

  lemma QueueingWrites(lib: Lib, m: Mem, d: Disk, allowed: bool, r: BuildRequest, env: Env)
    ensures var st := QueueBuild(lib, m, d, allowed, r, env);
      && Wrote(d, st.disk, st.mem.state) && st.mem.config == m.config && (m.poisoned ==> st.disk == d)
      && st.mem.state.proposals == m.state.proposals
  {
  }

  /** Serving adds at most the candidate it accepts. */
  lemma ServingWrites(lib: Lib, m: Mem, d: Disk, allowed: bool, q: Request, env: Env)
    ensures var st := Handle(lib, m, d, allowed, q, env);
      && Wrote(d, st.disk, st.mem.state) && st.mem.config == m.config && (m.poisoned ==> st.disk == d)
      && Added(lib, m.config, env, m.state.proposals, st.mem.state.proposals)
  {
    match q
    case Proposal(r) => ProposingWrites(lib, m, d, allowed, r, env);
    case Approving(r) => ApprovingWrites(lib, m, d, allowed, r, env);
    case Building(r) => QueueingWrites(lib, m, d, allowed, r, env);
  }

  lemma ClaimingWrites(lib: Lib, m: Mem, d: Disk, env: Env)
    ensures var r := Claim(lib, m, d, env);
      && Wrote(d, r.disk, r.mem.state) && r.mem.config == m.config && r.mem.state.proposals == m.state.proposals
      && (m.poisoned ==> r.disk == d)
  {
    if !m.poisoned && QueuedBuilds(m.state) != {} {
      LeastExists(QueuedBuilds(m.state));
    }
  }

  lemma AddedVouched(lib: Lib, labels: seq<Label>, l: Label, cfg: Config, before: map<string, Candidate>, after: map<string, Candidate>)
    requires l.Serving? && Deployed(labels, cfg) && AllVouched(lib, labels, before) && Added(lib, cfg, l.env, before, after)
    ensures AllVouched(lib, labels + [l], after)
  {
    var i :| 0 <= i < |labels| && labels[i].Opening? && labels[i].config == cfg;
    var more := labels + [l];
    assert more[i] == labels[i] && more[|labels|] == l;
    forall id | id in after
      ensures Vouched(lib, more, after[id])
    {
      if id in before && after[id] == before[id] {
        StillVouched(lib, labels, l, before[id]);
      } else {
        assert Origin(lib, more[i].config, more[|labels|].env, after[id]);
      }
    }
  }

  lemma ServingTraced(lib: Lib, labels: seq<Label>, l: Label, w: World)
    requires WorldSound(lib, w) && Traced(lib, labels, w) && l.Serving? && w.engine.Some?
    ensures Traced(lib, labels + [l], ApplyServing(lib, w, w.engine.value, l.allowed, l.request, l.env))
  {
    var m := w.engine.value.mem;
    var st := Handle(lib, m, w.disk, l.allowed, l.request, l.env);
    StillTraced(lib, labels, l, w);
    ServingWrites(lib, m, w.disk, l.allowed, l.request, l.env);
    if !m.poisoned {
      AddedVouched(lib, labels, l, m.config, m.state.proposals, st.mem.state.proposals);
    }
    assert (labels + [l])[|labels|] == l;
    assert Asked(labels + [l], l.request);
  }

  lemma ClaimingTraced(lib: Lib, labels: seq<Label>, l: Label, w: World)
    requires WorldSound(lib, w) && Traced(lib, labels, w) && l.Claiming? && w.engine.Some?
    ensures Traced(lib, labels + [l], ApplyClaiming(lib, w, w.engine.value, l.env))
  {
    StillTraced(lib, labels, l, w);
    ClaimingWrites(lib, w.engine.value.mem, w.disk, l.env);
  }

  lemma FinishingWrites(lib: Lib, m: Mem, d: Disk, id: string, output: Option<string>, fate: Fate)
    ensures var st := Engine.Finish(lib, m, d, id, output, fate);
      && Wrote(d, st.disk, st.mem.state) && st.mem.config == m.config && st.mem.state.proposals == m.state.proposals
      && (m.poisoned ==> st.disk == d)
  {
  }

  lemma FinishingTraced(lib: Lib, labels: seq<Label>, l: Label, w: World)
    requires WorldSound(lib, w) && Traced(lib, labels, w) && l.Finishing? && w.engine.Some?
    ensures Traced(lib, labels + [l], ApplyFinishing(lib, w, w.engine.value, l.id, l.output, l.fate))
  {
    StillTraced(lib, labels, l, w);
    FinishingWrites(lib, w.engine.value.mem, w.disk, l.id, l.output, l.fate);
  }

  lemma OpeningWrites(lib: Lib, cfg: Config, d: Disk, env: Env)
    ensures var (m, d') := Open(lib, cfg, d, env);
      && (d'.file.proposals == d.file.proposals) && (d'.durable.proposals == d.durable.proposals || d'.durable.proposals == d.file.proposals)
      && (m.Some? ==> m.value.config == cfg)
  {
  }

  lemma OpeningTraced(lib: Lib, labels: seq<Label>, l: Label, w: World)
    requires Traced(lib, labels, w) && l.Opening?
    ensures Traced(lib, labels + [l], ApplyOpening(lib, w, l.config, l.env))
  {
    StillTraced(lib, labels, l, w);
    OpeningWrites(lib, l.config, w.disk, l.env);
    assert (labels + [l])[|labels|] == l;
    assert Deployed(labels + [l], l.config);
  }

  lemma StepTraced(lib: Lib, labels: seq<Label>, l: Label, w: World)
    requires WorldSound(lib, w) && Traced(lib, labels, w)
    ensures Traced(lib, labels + [l], Apply(lib, w, l))
  {
    StillTraced(lib, labels, l, w);
    match l
    case Serving(_, _, _) => if w.engine.Some? { ServingTraced(lib, labels, l, w); }
    case Claiming(_) => if w.engine.Some? { ClaimingTraced(lib, labels, l, w); }
    case Finishing(_, _, _) => if w.engine.Some? { FinishingTraced(lib, labels, l, w); }
    case Opening(_, _) => OpeningTraced(lib, labels, l, w);
    case _ =>
  }

  lemma StartTraced(lib: Lib)
    ensures Traced(lib, [], START)
  {
  }

  lemma {:induction false} RunTraced(lib: Lib, labels: seq<Label>)
    requires lib.Valid()
    ensures Traced(lib, labels, Run(lib, labels))
  {
    if labels == [] {
      StartTraced(lib);
    } else {
      var before, l := labels[..|labels| - 1], labels[|labels| - 1];
      RunTraced(lib, before);
      RunSound(lib, before);
      StepTraced(lib, before, l, Run(lib, before));
      assert before + [l] == labels;
    }
  }

  // Replay.

  /** Over all restarts, a request id answered with a record belongs to one
      request and one record. */
  lemma RepliesAreExact(lib: Lib, labels: seq<Label>, i: nat, j: nat)
    requires lib.Valid() && NoCollisions(lib, labels)
    requires i < |Run(lib, labels).replies| && j < |Run(lib, labels).replies|
    ensures var x, y := Run(lib, labels).replies[i], Run(lib, labels).replies[j];
      RequestId(x.request) == RequestId(y.request) ==> x == y
  {
    RunSound(lib, labels);
    RunTraced(lib, labels);
    var w := Run(lib, labels);
    var x, y := w.replies[i], w.replies[j];
    assert Answered(lib, x, w.disk.file.requests) && Answered(lib, y, w.disk.file.requests);
    assert Asked(labels, x.request) && Asked(labels, y.request);
    assert Digested(labels, Document(x.request)) && Digested(labels, Document(y.request));
    if RequestId(x.request) == RequestId(y.request) {
      RequestsDiffer(x.request, y.request);
    }
  }

  // The sandbox.

  predicate Confined(lib: Lib, h: Handing) {
    && h.current.Some? && lib.fromToml(h.work.toml).Some?
    && Enforced(h.minimum, lib.fromToml(h.work.toml).value, h.current.value)
  }

  /** The candidate a queued build stands on. */
  lemma BuildHasCandidate(lib: Lib, s: State, b: Build)
    requires Sound(lib, s) && b.id in s.builds && s.builds[b.id] == b
    ensures b.proposalId in s.proposals
    ensures var c := s.proposals[b.proposalId]; ValidCandidate(lib, b.proposalId, c) && c.hashes == b.hashes
  {
    assert ValidBuild(lib, s.approvals, b.id, b);
    var a := s.approvals[b.approvalId];
    assert ValidApproval(s.proposals, b.approvalId, a);
    assert ValidCandidate(lib, b.proposalId, s.proposals[b.proposalId]);
  }

  /** Equal digests carry the acceptance of a candidate over to the deployment and
      source of the claim. */
  lemma AcceptanceCarriesOver(lib: Lib, labels: seq<Label>, l: Label, cfg: Config, c: Candidate)
    requires NoCollisions(lib, labels + [l]) && l.Claiming? && Deployed(labels, cfg) && Vouched(lib, labels, c)
    requires CurrentHashes(lib, cfg, l.env) == Some(c.hashes)
    requires l.env.current.Some? && lib.revision(l.env.current.value) == c.base == lib.revision(c.baseConfiguration)
    ensures Enforced(cfg.minimum, c.configuration, l.env.current.value)
  {
    var more := labels + [l];
    assert more[|labels|] == l;
    var k :| 0 <= k < |labels| && labels[k].Opening? && labels[k].config == cfg;
    var i, j :| && 0 <= i < |labels| && labels[i].Opening? && 0 <= j < |labels| && labels[j].Serving?
                && Origin(lib, labels[i].config, labels[j].env, c);
    assert more[i] == labels[i] && more[j] == labels[j] && more[k] == labels[k];
    assert EnvOf(more[j]) == Some(labels[j].env) && EnvOf(more[|labels|]) == Some(l.env);
    assert OfSource(more, l.env.current.value) && OfSource(more, c.baseConfiguration);
    assert OfPolicy(more, PolicyDocument(more[k].config, EnvOf(more[|labels|]).value.schema));
    assert OfPolicy(more, PolicyDocument(more[i].config, EnvOf(more[j]).value.schema));
    PoliciesDiffer(cfg, l.env.schema, labels[i].config, labels[j].env.schema);
  }

  lemma ClaimedWork(lib: Lib, m: Mem, d: Disk, id: string, env: Env)
    requires id in m.state.builds && ClaimBuild(lib, m, d, id, env).work.Some?
    ensures var b := m.state.builds[id];
      && b.proposalId in m.state.proposals && StillApproved(lib, m.config, b, m.state.proposals[b.proposalId], env)
      && ClaimBuild(lib, m, d, id, env).work.value.toml == m.state.proposals[b.proposalId].toml
  {
  }

  lemma ClaimBuildIsConfined(lib: Lib, labels: seq<Label>, l: Label, m: Mem, d: Disk, id: string)
    requires NoCollisions(lib, labels + [l]) && l.Claiming? && Deployed(labels, m.config)
    requires Sound(lib, m.state) && AllVouched(lib, labels, m.state.proposals)
    requires id in m.state.builds && ClaimBuild(lib, m, d, id, l.env).work.Some?
    ensures Confined(lib, Handing(ClaimBuild(lib, m, d, id, l.env).work.value, m.config.minimum, l.env.current))
  {
    var b := m.state.builds[id];
    assert ValidBuild(lib, m.state.approvals, id, b);
    BuildHasCandidate(lib, m.state, b);
    var c := m.state.proposals[b.proposalId];
    assert Vouched(lib, labels, c);
    ClaimedWork(lib, m, d, id, l.env);
    AcceptanceCarriesOver(lib, labels, l, m.config, c);
  }

  lemma ClaimIsConfined(lib: Lib, labels: seq<Label>, l: Label, m: Mem, d: Disk)
    requires NoCollisions(lib, labels + [l]) && l.Claiming? && Deployed(labels, m.config)
    requires Sound(lib, m.state) && AllVouched(lib, labels, m.state.proposals) && Claim(lib, m, d, l.env).work.Some?
    ensures Confined(lib, Handing(Claim(lib, m, d, l.env).work.value, m.config.minimum, l.env.current))
  {
    LeastExists(QueuedBuilds(m.state));
    var id :| IsLeast(id, QueuedBuilds(m.state)) && Claim(lib, m, d, l.env) == ClaimBuild(lib, m, d, id, l.env);
    ClaimBuildIsConfined(lib, labels, l, m, d, id);
  }

  lemma PoisonedClaimsNothing(lib: Lib, m: Mem, d: Disk, env: Env)
    ensures Claim(lib, m, d, env).work.Some? ==> !m.poisoned
  {
  }

  lemma StepIsConfined(lib: Lib, labels: seq<Label>, l: Label, w: World)
    requires lib.Valid() && NoCollisions(lib, labels + [l]) && WorldSound(lib, w) && Traced(lib, labels, w)
    ensures forall h :: h in T.HandedOut(lib, w, l) ==> Confined(lib, h)
  {
    if T.HandedOut(lib, w, l) != [] {
      PoisonedClaimsNothing(lib, w.engine.value.mem, w.disk, l.env);
      ClaimIsConfined(lib, labels, l, w.engine.value.mem, w.disk);
    }
  }

  lemma FewerCollisions(lib: Lib, labels: seq<Label>, l: Label)
    requires NoCollisions(lib, labels + [l])
    ensures NoCollisions(lib, labels)
  {
    var more := labels + [l];
    assert forall i :: 0 <= i < |labels| ==> more[i] == labels[i];
    forall v | Digested(labels, v)
      ensures Digested(more, v)
    {
    }
  }

  /** Every configuration ever given to the builder had a sandbox at least as
      strong as the deployment's minimum and the source of that moment. */
  lemma {:induction false} WorkRespectsTheSandbox(lib: Lib, labels: seq<Label>, i: nat)
    requires lib.Valid() && NoCollisions(lib, labels) && i < |Run(lib, labels).handed|
    ensures Confined(lib, Run(lib, labels).handed[i])
    decreases |labels|
  {
    if labels != [] {
      var before, l := labels[..|labels| - 1], labels[|labels| - 1];
      assert before + [l] == labels;
      RunSound(lib, before);
      RunTraced(lib, before);
      StepIsConfined(lib, before, l, Run(lib, before));
      T.OnlyClaimsHandOut(lib, Run(lib, before), l);
      if i < |Run(lib, before).handed| {
        FewerCollisions(lib, before, l);
        WorkRespectsTheSandbox(lib, before, i);
      }
    }
  }
}
