/** What each operation of the control engine answers and records, exactly; and that
    a recorded build outcome is the one its builder reported. */
module EngineOutcomes {
  import opened Wrappers
  import opened Json
  import opened Order
  import opened Engine
  import opened EngineState
  import opened EngineRuns
  import D = Diff

  // Build outcomes.

  /** The receipts with one build changed. */
  function WithOutcome(s: State, id: string, stage: Stage, output: Option<string>, error: Option<string>): State
    requires id in s.builds
  {
    s.(builds := s.builds[id := s.builds[id].(stage := stage, output := output, error := error)])
  }

  /** A running build that reports a path becomes built with that path, and one that
      reports a failure failed without one, in both images, exactly when a writer
      that is not closed publishes it; no other receipt changes. */
  lemma FinishRecords(lib: Lib, w: World, id: string, output: Option<string>, fate: Fate)
    requires lib.Valid() && WorldSound(lib, w) && w.engine.Some? && id in w.engine.value.running
    requires !w.engine.value.mem.poisoned && (output.Some? ==> lib.outputPath(output.value))
    ensures id in w.disk.file.builds
    ensures var w', s := Apply(lib, w, Finishing(id, output, fate)), w.disk.file;
      var s' := if output.Some? then WithOutcome(s, id, Built, output, None)
                else WithOutcome(s, id, Failed, None, Some("build_failed_or_approval_invalidated"));
      && w'.engine.Some? && w'.engine.value.running == w.engine.value.running - {id}
      && (!w'.engine.value.mem.poisoned <==> fate == Synced && Fits(lib, s'))
      && (!w'.engine.value.mem.poisoned ==> w'.disk == Disk(s', s') && w'.engine.value.mem.state == s')
      && w'.disk == Replace(w.disk, s', if Fits(lib, s') then fate else Kept)
  {
    var m := w.engine.value.mem;
    assert m.state == w.disk.file;
    assert ValidBuild(lib, m.state.approvals, id, m.state.builds[id]);
    hide Sound, HistorySound, Fits;
  }

  /** The builder of `id`, while it held the build, reported `output`. */
  ghost predicate Reported(lib: Lib, labels: seq<Label>, id: string, output: string) {
    exists k :: 0 <= k < |labels| && Reports(lib, labels, k, id, output)
  }

  ghost predicate Reports(lib: Lib, labels: seq<Label>, k: nat, id: string, output: string)
    requires k < |labels|
  {
    && labels[k].Finishing? && labels[k].id == id && labels[k].output == Some(output)
    && Run(lib, labels[..k]).engine.Some? && id in Run(lib, labels[..k]).engine.value.running
  }

  /** Built builds of `after` were built before, with the same output, or are the
      one that step `l` reports. */
  predicate BuiltBy(before: map<string, Build>, after: map<string, Build>, l: Label) {
    forall id :: id in after && after[id].stage == Built ==>
      || (id in before && before[id].stage == Built && before[id].output == after[id].output)
      || (l.Finishing? && l.id == id && l.output == after[id].output)
  }

  lemma ServingBuilds(lib: Lib, m: Mem, d: Disk, allowed: bool, q: Request, env: Env)
    ensures var st := Handle(lib, m, d, allowed, q, env);
      && BuiltBy(m.state.builds, st.mem.state.builds, Crashing)
      && (st.disk.file == d.file || st.disk.file == st.mem.state) && (st.disk.durable == d.durable || st.disk.durable == st.mem.state)
      && (m.poisoned ==> st.disk == d)
  {
    hide Drafted, Approved, Replay;
    if q.Building? {
      QueueBuilds(lib, m, d, allowed, q.build, env);
    }
  }

  lemma QueueBuilds(lib: Lib, m: Mem, d: Disk, allowed: bool, r: BuildRequest, env: Env)
    ensures var st := QueueBuild(lib, m, d, allowed, r, env);
      && BuiltBy(m.state.builds, st.mem.state.builds, Crashing)
      && (st.disk.file == d.file || st.disk.file == st.mem.state) && (st.disk.durable == d.durable || st.disk.durable == st.mem.state)
      && (m.poisoned ==> st.disk == d)
  {
    hide Replay;
  }

  lemma ClaimBuilds(lib: Lib, m: Mem, d: Disk, env: Env)
    ensures var r := Claim(lib, m, d, env);
      && BuiltBy(m.state.builds, r.mem.state.builds, Crashing)
      && (r.disk.file == d.file || r.disk.file == r.mem.state) && (r.disk.durable == d.durable || r.disk.durable == r.mem.state)
      && (m.poisoned ==> r.disk == d)
  {
    if !m.poisoned && QueuedBuilds(m.state) != {} {
      LeastExists(QueuedBuilds(m.state));
    }
  }

  lemma FinishBuilds(lib: Lib, m: Mem, d: Disk, id: string, output: Option<string>, fate: Fate)
    ensures var st := Finish(lib, m, d, id, output, fate);
      && BuiltBy(m.state.builds, st.mem.state.builds, Finishing(id, output, fate))
      && (st.disk.file == d.file || st.disk.file == st.mem.state) && (st.disk.durable == d.durable || st.disk.durable == st.mem.state)
      && (m.poisoned ==> st.disk == d)
  {
  }

  /** What recovery does to each build. */
  lemma RecoveryRetires(s: State, id: string)
    requires id in s.builds
    ensures var b, b' := s.builds[id], Recovered(s).builds[id];
      b' == if b.stage == Queued || b.stage == Stage.Building
            then b.(stage := Unknown, error := Some("service_restarted_no_redispatch")) else b
    ensures Recovered(s).proposals == s.proposals && Recovered(s).approvals == s.approvals && Recovered(s).requests == s.requests
  {
  }

  lemma OpenBuilds(lib: Lib, cfg: Config, d: Disk, env: Env)
    ensures var d' := Open(lib, cfg, d, env).1;
      && (d'.file == d.file || BuiltBy(d.file.builds, d'.file.builds, Crashing))
      && (d'.durable == d.durable || BuiltBy(d.file.builds, d'.durable.builds, Crashing))
  {
    hide Validate;
  }

  /** An image after step `l`: an earlier one, or the file's with at most the
      reported build newly built. */
  ghost predicate Follows(d: Disk, s: State, l: Label) {
    s == d.file || s == d.durable || BuiltBy(d.file.builds, s.builds, l)
  }

  ghost predicate Enabled(w: World, l: Label) {
    l.Finishing? ==> w.engine.Some? && l.id in w.engine.value.running
  }

  lemma BuiltAnyway(before: map<string, Build>, after: map<string, Build>, l: Label)
    requires BuiltBy(before, after, Crashing)
    ensures BuiltBy(before, after, l)
  {
  }

  lemma StepBuilds(lib: Lib, w: World, l: Label)
    requires WorldSound(lib, w)
    ensures var d' := Apply(lib, w, l).disk;
      && (Enabled(w, l) ==> Follows(w.disk, d'.file, l) && Follows(w.disk, d'.durable, l))
      && (!Enabled(w, l) ==> d' == w.disk)
  {
    assert w.engine.Some? ==> Published(w.engine.value.mem, w.disk);
    hide Handle, Claim, Finish, Open, WorldSound, BuiltBy;
    forall before, after | BuiltBy(before, after, Crashing)
      ensures BuiltBy(before, after, l)
    {
      BuiltAnyway(before, after, l);
    }
    match l
    case Opening(cfg, env) => OpenBuilds(lib, cfg, w.disk, env);
    case Serving(allowed, q, env) => if w.engine.Some? { ServingBuilds(lib, w.engine.value.mem, w.disk, allowed, q, env); }
    case Claiming(env) => if w.engine.Some? { ClaimBuilds(lib, w.engine.value.mem, w.disk, env); }
    case Finishing(id, output, fate) => if w.engine.Some? { FinishBuilds(lib, w.engine.value.mem, w.disk, id, output, fate); }
    case _ =>
  }

  ghost predicate AllReported(lib: Lib, labels: seq<Label>, builds: map<string, Build>) {
    forall id :: id in builds && builds[id].stage == Built ==> builds[id].output.Some? && Reported(lib, labels, id, builds[id].output.value)
  }

  lemma StillReported(lib: Lib, before: seq<Label>, l: Label, id: string, output: string)
    requires Reported(lib, before, id, output)
    ensures Reported(lib, before + [l], id, output)
  {
    hide Run;
    var k :| 0 <= k < |before| && Reports(lib, before, k, id, output);
    assert (before + [l])[..k] == before[..k] && (before + [l])[k] == before[k];
    assert Reports(lib, before + [l], k, id, output);
  }

  lemma ImageReported(lib: Lib, before: seq<Label>, l: Label, s: State)
    requires var w := Run(lib, before);
      && AllReported(lib, before, w.disk.file.builds) && AllReported(lib, before, w.disk.durable.builds)
      && Enabled(w, l) && Follows(w.disk, s, l)
    requires forall id :: id in s.builds && s.builds[id].stage == Built ==> s.builds[id].output.Some?
    ensures AllReported(lib, before + [l], s.builds)
  {
    hide Run;
    var w, labels := Run(lib, before), before + [l];
    forall id | id in s.builds && s.builds[id].stage == Built
      ensures Reported(lib, labels, id, s.builds[id].output.value)
    {
      var output := s.builds[id].output.value;
      if Reported(lib, before, id, output) {
        StillReported(lib, before, l, id, output);
      } else {
        assert labels[..|before|] == before && labels[|before|] == l;
        assert Reports(lib, labels, |before|, id, output);
      }
    }
  }

  lemma BuiltHaveOutputs(lib: Lib, s: State)
    requires Sound(lib, s)
    ensures forall id :: id in s.builds && s.builds[id].stage == Built ==> s.builds[id].output.Some?
  {
    forall id | id in s.builds
      ensures s.builds[id].stage == Built ==> s.builds[id].output.Some?
    {
      assert ValidBuild(lib, s.approvals, id, s.builds[id]);
    }
  }

  /** In either image a build is recorded as built with a path only if the builder
      it was given to reported that path. */
  lemma {:induction false} OutputsAreReported(lib: Lib, labels: seq<Label>)
    requires lib.Valid()
    ensures AllReported(lib, labels, Run(lib, labels).disk.file.builds) && AllReported(lib, labels, Run(lib, labels).disk.durable.builds)
  {
    if labels != [] {
      var before, l := labels[..|labels| - 1], labels[|labels| - 1];
      assert before + [l] == labels;
      OutputsAreReported(lib, before);
      RunSound(lib, before);
      RunSound(lib, labels);
      assert Run(lib, labels) == Apply(lib, Run(lib, before), l);
      var w, d' := Run(lib, before), Run(lib, labels).disk;
      hide Run, Apply, Follows, Enabled;
      StepBuilds(lib, w, l);
      BuiltHaveOutputs(lib, d'.file);
      BuiltHaveOutputs(lib, d'.durable);
      hide AllReported, Sound;
      if Enabled(w, l) {
        ImageReported(lib, before, l, d'.file);
        ImageReported(lib, before, l, d'.durable);
      } else {
        AllStillReported(lib, before, l, d'.file.builds);
        AllStillReported(lib, before, l, d'.durable.builds);
      }
    }
  }

  lemma AllStillReported(lib: Lib, before: seq<Label>, l: Label, builds: map<string, Build>)
    requires AllReported(lib, before, builds)
    ensures AllReported(lib, before + [l], builds)
  {
    forall id | id in builds && builds[id].stage == Built
      ensures Reported(lib, before + [l], id, builds[id].output.value)
    {
      StillReported(lib, before, l, id, builds[id].output.value);
    }
  }

  // Which requests are served.

  /** A request id that may still be used. */
  predicate Unused(s: State, rid: string) {
    IsIdentifier(rid) && |rid| <= 64 && rid !in s.requests && |s.requests| < 1024
  }

  /** The deployment's own hashes, with everything else the policy binds digested. */
  function Bound(lib: Lib, cfg: Config, env: Env): Hashes {
    Hashes(lib.revision(PolicyDocument(cfg, env.schema)), cfg.hashes.compiler, cfg.hashes.inputs)
  }

  /** Inputs match the deployment and the current source can be read. */
  predicate Steady(env: Env) {
    env.hashesFresh && env.sourceReadable && env.current.Some?
  }

  /** The engine's answer if it publishes `s`, and what it is otherwise. */
  predicate Serves(lib: Lib, m: Mem, st: Step, acceptable: bool, s: State, fate: Fate, answer: Answer) {
    && (st.answer.Served? <==> acceptable && fate == Synced && Fits(lib, s))
    && (st.answer.Served? ==> st == Step(m.(state := s), Disk(s, s), answer))
    && (!acceptable ==> st.mem == m && st.disk == Disk(m.state, m.state))
    && (acceptable && !st.answer.Served? ==> st.mem.poisoned)
  }

  /** The sandbox profile a configuration names, `balanced` if it names none. */
  function Profile(v: Json): string {
    if v.Get("sandbox").Some? && v.Get("sandbox").value.GetStr("profile").Some?
    then v.Get("sandbox").value.GetStr("profile").value else "balanced"
  }

  /** The policy: `dev` is never enough, `balanced` only where neither the
      deployment nor the current source asks for more, `strict` always. */
  lemma SandboxPolicy(minimum: Minimum, candidate: Json, base: Json)
    ensures Enforced(minimum, candidate, base) <==>
      || Profile(candidate) == "strict"
      || (Profile(candidate) == "balanced" && minimum == Balanced && (Profile(base) == "balanced" || Profile(base) == "dev"))
  {
  }

  predicate AcceptableDraft(lib: Lib, cfg: Config, s: State, r: Draft, env: Env) {
    && Unused(s, r.requestId) && |s.proposals| < 64 && Steady(env)
    && r.base == lib.revision(env.current.value) && Enforced(cfg.minimum, r.configuration, env.current.value)
    && lib.toToml(r.configuration).Some? && env.tomlFits && env.normalized == Some(r.configuration) && env.responseFits
  }

  /** A new draft is served exactly when it is on the current source, keeps the
      sandbox, and is what the normaliser makes of its own TOML; the candidate
      records it with its difference from the source. */
  lemma ProposalServedIff(lib: Lib, m: Mem, r: Draft, env: Env)
    requires !m.poisoned && r.requestId !in m.state.requests
    ensures var rid, base := r.requestId, if env.current.Some? then env.current.value else Null;
      var c := Candidate("p_" + rid, lib.revision(base), lib.revision(r.configuration), r.configuration,
                         D.Reports("", D.Difference(base, r.configuration)), Bound(lib, m.config, env), base,
                         if lib.toToml(r.configuration).Some? then lib.toToml(r.configuration).value else "");
      Serves(lib, m, Propose(lib, m, Disk(m.state, m.state), true, r, env), AcceptableDraft(lib, m.config, m.state, r, env),
             WithProposal(m.state, rid, lib.revision(DraftDocument(r)), c), env.fate, Served(OfProposal, c.id))
  {
    hide Enforced, D.Reports, D.Difference, IsIdentifier, DraftDocument, PolicyDocument;
  }

  predicate AcceptableApproval(lib: Lib, cfg: Config, s: State, r: Approve, env: Env) {
    && IsIdentifier(r.proposalId) && Unused(s, r.requestId) && Steady(env) && r.proposalId in s.proposals
    && var p := s.proposals[r.proposalId];
       && Enforced(cfg.minimum, p.configuration, env.current.value)
       && r.base == p.base == lib.revision(env.current.value) && r.revision == p.revision
       && r.hashes == p.hashes == Bound(lib, cfg, env)
  }

  /** A new approval is served exactly when the base, revision and hashes it names
      are the proposal's and still the current ones; it records what it named. */
  lemma ApprovalServedIff(lib: Lib, m: Mem, r: Approve, env: Env)
    requires !m.poisoned && r.requestId !in m.state.requests
    ensures var a := Approval("a_" + r.requestId, r.proposalId, r.base, r.revision, r.hashes);
      Serves(lib, m, ApproveProposal(lib, m, Disk(m.state, m.state), true, r, env), AcceptableApproval(lib, m.config, m.state, r, env),
             WithApproval(m.state, r.requestId, lib.revision(ApproveDocument(r)), a), env.fate, Served(OfApproval, a.id))
  {
    hide Enforced, IsIdentifier, ApproveDocument, PolicyDocument;
  }

  predicate AcceptableBuild(lib: Lib, cfg: Config, s: State, r: BuildRequest, env: Env) {
    && Unused(s, r.requestId) && r.approvalId in s.approvals && r.proposalId in s.proposals && cfg.builder != Null && Steady(env)
    && |set id | id in s.builds && (s.builds[id].stage == Queued || s.builds[id].stage == Stage.Building)| < 4
    && (forall id :: id in s.builds ==> s.builds[id].approvalId != r.approvalId)
    && var a, p := s.approvals[r.approvalId], s.proposals[r.proposalId];
       && Enforced(cfg.minimum, p.configuration, env.current.value) && a.proposalId == r.proposalId
       && a.base == p.base == lib.revision(env.current.value) && r.revision == a.revision == p.revision
       && r.hashes == a.hashes == p.hashes == Bound(lib, cfg, env)
  }

  /** A new build is queued exactly when its approval is unspent and agrees with the
      request, the proposal and the current deployment, and fewer than four builds
      are queued or running. */
  lemma BuildServedIff(lib: Lib, m: Mem, r: BuildRequest, env: Env)
    requires !m.poisoned && r.requestId !in m.state.requests
    ensures var b := Build("b_" + r.requestId, r.proposalId, r.revision, Queued, None, None, r.approvalId, r.hashes);
      Serves(lib, m, QueueBuild(lib, m, Disk(m.state, m.state), true, r, env), AcceptableBuild(lib, m.config, m.state, r, env),
             WithBuild(m.state, r.requestId, lib.revision(BuildDocument(r)), b), env.fate, Served(OfBuild, b.id))
  {
    hide Enforced, IsIdentifier, BuildDocument, PolicyDocument;
    assert ActiveBuilds(m.state)
        == set id | id in m.state.builds && (m.state.builds[id].stage == Queued || m.state.builds[id].stage == Stage.Building);
  }

  /** A request id used before, or asked for without permission, changes nothing:
      the same request gets its own record, another a conflict. */
  lemma RepeatAnswered(lib: Lib, m: Mem, d: Disk, allowed: bool, q: Request, env: Env)
    requires !m.poisoned && (q.Approving? ==> IsIdentifier(q.approve.proposalId))
    requires !allowed || RequestId(q) in m.state.requests
    ensures var rid := RequestId(q);
      Handle(lib, m, d, allowed, q, env) == Step(m, d,
        if !allowed then Refused(403)
        else if !IsIdentifier(rid) || |rid| > 64 then Refused(400)
        else if m.state.requests[rid].fingerprint != lib.revision(Document(q)) then Refused(409)
        else Served(m.state.requests[rid].kind, m.state.requests[rid].id))
  {
  }

  /** A closed writer serves and hands out nothing. */
  lemma ClosedWriterRefuses(lib: Lib, m: Mem, d: Disk, allowed: bool, q: Request, env: Env)
    requires m.poisoned
    ensures Handle(lib, m, d, allowed, q, env) == Step(m, d, Refused(503)) && Claim(lib, m, d, env) == Claimed(m, d, None)
  {
  }

  // Which build is handed out.

  /** The claim of `id`, the first queued build. It is handed out with its
      candidate's TOML exactly when source and hashes are still those approved, a
      builder is configured and starting it is published; a changed source or
      hash fails it instead. */
  lemma ClaimHandsOutIff(lib: Lib, m: Mem, id: string, env: Env)
    requires Ready(lib, m, Disk(m.state, m.state)) && id in m.state.builds && m.state.builds[id].stage == Queued
    requires forall other :: other in m.state.builds && m.state.builds[other].stage == Queued ==> Leq(id, other)
    requires forall other :: other in m.state.builds ==> m.state.builds[other].stage != Stage.Building
    ensures m.state.builds[id].proposalId in m.state.proposals
    ensures var r, b := Claim(lib, m, Disk(m.state, m.state), env), m.state.builds[id];
      var c := m.state.proposals[b.proposalId];
      var standing := Steady(env) && b.hashes == Bound(lib, m.config, env) && lib.revision(env.current.value) == c.base;
      var started := WithOutcome(m.state, id, Stage.Building, None, None);
      var failed := WithOutcome(m.state, id, Failed, None, Some("build_failed_or_approval_invalidated"));
      && (r.work.Some? <==> standing && m.config.builder != Null && env.fate == Synced && Fits(lib, started))
      && (r.work.Some? ==> r == Claimed(m.(state := started), Disk(started, started), Some(Work(id, c.toml))))
      && (!standing ==> r.mem.state == failed && (!r.mem.poisoned <==> env.fate == Synced && Fits(lib, failed)))
      && (standing && m.config.builder == Null ==> r.mem == m && r.disk == Disk(m.state, m.state))
  {
    var b := m.state.builds[id];
    assert ValidBuild(lib, m.state.approvals, id, b);
    assert ValidApproval(m.state.proposals, b.approvalId, m.state.approvals[b.approvalId]);
    LeastIsClaimed(lib, m, id, env);
    hide Sound, Claim, PolicyDocument;
  }

  lemma LeastIsClaimed(lib: Lib, m: Mem, id: string, env: Env)
    requires !m.poisoned && id in m.state.builds && m.state.builds[id].stage == Queued
    requires forall other :: other in m.state.builds && m.state.builds[other].stage == Queued ==> Leq(id, other)
    requires forall other :: other in m.state.builds ==> m.state.builds[other].stage != Stage.Building
    ensures Claim(lib, m, Disk(m.state, m.state), env) == ClaimBuild(lib, m, Disk(m.state, m.state), id, env)
  {
    var ids := QueuedBuilds(m.state);
    assert id in ids;
    LeastExists(ids);
    var least :| IsLeast(least, ids) && Claim(lib, m, Disk(m.state, m.state), env) == ClaimBuild(lib, m, Disk(m.state, m.state), least, env);
    LeqAntisymmetric(id, least);
  }
}
