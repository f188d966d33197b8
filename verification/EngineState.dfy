/** What every operation keeps about the engine's receipts: more than the
    validator checks, enough to imply it after any operation. */
module EngineState {
  import opened Wrappers
  import opened Json
  import opened Engine
  import D = Diff

  function Prefix(kind: Kind): string {
    match kind
    case OfProposal => "p_"
    case OfApproval => "a_"
    case OfBuild => "b_"
  }

  /** Record `id` of `kind` was created by the request its name says. */
  predicate NamedBy(requests: map<string, Record>, kind: Kind, id: string) {
    && |id| > 2 && id[..2] == Prefix(kind) && id[2..] in requests
    && requests[id[2..]].kind == kind && requests[id[2..]].id == id
  }

  predicate Named(requests: map<string, Record>, kind: Kind, ids: set<string>) {
    forall id {:trigger NamedBy(requests, kind, id)} :: id in ids ==> NamedBy(requests, kind, id)
  }

  ghost predicate CandidatesSound(lib: Lib, proposals: map<string, Candidate>) {
    && |proposals| <= 64
    && (forall id {:trigger ValidCandidate(lib, id, proposals[id])} :: id in proposals ==> ValidCandidate(lib, id, proposals[id]))
  }

  predicate ApprovalsSound(proposals: map<string, Candidate>, approvals: map<string, Approval>) {
    forall id {:trigger ValidApproval(proposals, id, approvals[id])} :: id in approvals ==> ValidApproval(proposals, id, approvals[id])
  }

  function ActiveIn(builds: map<string, Build>): set<string> {
    set id | id in builds && Active(builds[id].stage)
  }

  /** No two builds spend the same approval. */
  predicate OneShot(builds: map<string, Build>) {
    forall x, y :: x in builds && y in builds && builds[x].approvalId == builds[y].approvalId ==> x == y
  }

  predicate OneBuilding(builds: map<string, Build>) {
    forall x, y :: x in builds && y in builds && builds[x].stage == Building && builds[y].stage == Building ==> x == y
  }

  predicate BuildsValid(lib: Lib, approvals: map<string, Approval>, builds: map<string, Build>) {
    forall id {:trigger ValidBuild(lib, approvals, id, builds[id])} :: id in builds ==> ValidBuild(lib, approvals, id, builds[id])
  }

  /** No queued or running build has failed yet. */
  predicate Unfailed(builds: map<string, Build>) {
    forall id :: id in builds && Active(builds[id].stage) ==> builds[id].error.None?
  }

  /** Every build is valid, no two builds spend the same approval, at most four
      are queued or building, at most one is building, and none of them has an
      error. */
  predicate BuildsSound(lib: Lib, approvals: map<string, Approval>, builds: map<string, Build>) {
    BuildsValid(lib, approvals, builds) && OneShot(builds) && |ActiveIn(builds)| <= 4 && OneBuilding(builds) && Unfailed(builds)
  }

  predicate RecordsSound(s: State) {
    && |s.requests| <= 1024
    && (forall rid {:trigger ValidRecord(s, rid, s.requests[rid])} :: rid in s.requests ==> ValidRecord(s, rid, s.requests[rid]))
    && Named(s.requests, OfProposal, s.proposals.Keys)
    && Named(s.requests, OfApproval, s.approvals.Keys)
    && Named(s.requests, OfBuild, s.builds.Keys)
  }

  ghost predicate Sound(lib: Lib, s: State) {
    && CandidatesSound(lib, s.proposals)
    && ApprovalsSound(s.proposals, s.approvals)
    && BuildsSound(lib, s.approvals, s.builds)
    && RecordsSound(s)
  }

  // The capacity bounds the validator checks follow from the naming.

  lemma {:induction false} InjectedSize(ids: set<string>, rids: set<string>, prefix: string)
    requires |prefix| == 2
    requires forall id :: id in ids ==> |id| > 2 && id[..2] == prefix && id[2..] in rids
    ensures |ids| <= |rids|
    decreases |ids|
  {
    if ids != {} {
      var id :| id in ids;
      forall other | other in ids - {id}
        ensures other[2..] in rids - {id[2..]}
      {
        assert other == other[..2] + other[2..] && id == id[..2] + id[2..];
      }
      InjectedSize(ids - {id}, rids - {id[2..]}, prefix);
      assert |rids - {id[2..]}| == |rids| - 1;
    }
  }

  lemma NamedSize(requests: map<string, Record>, kind: Kind, ids: set<string>)
    requires Named(requests, kind, ids)
    ensures |ids| <= |requests.Keys|
  {
    forall id | id in ids
      ensures |id| > 2 && id[..2] == Prefix(kind) && id[2..] in requests.Keys
    {
      assert NamedBy(requests, kind, id);
    }
    InjectedSize(ids, requests.Keys, Prefix(kind));
  }

  lemma SoundValidates(lib: Lib, s: State)
    requires Sound(lib, s)
    ensures Validate(lib, s)
  {
    NamedSize(s.requests, OfApproval, s.approvals.Keys);
    NamedSize(s.requests, OfBuild, s.builds.Keys);
    assert |s.approvals.Keys| == |s.approvals| && |s.builds.Keys| == |s.builds| && |s.requests.Keys| == |s.requests|;
  }

  // How receipts may change.

  predicate Terminal(stage: Stage) {
    !Active(stage)
  }

  /** A build keeps its identity, and moves only forward: queued, building, one
      terminal stage for good. */
  predicate Later(b: Build, b': Build) {
    && b' == b.(stage := b'.stage, output := b'.output, error := b'.error)
    && (Terminal(b.stage) ==> b' == b)
    && (b.stage == Building ==> b'.stage != Queued)
  }

  ghost predicate Extends<V>(m: map<string, V>, m': map<string, V>) {
    forall k :: k in m ==> k in m' && m'[k] == m[k]
  }

  predicate BuildsMove(builds: map<string, Build>, builds': map<string, Build>) {
    forall id :: id in builds ==> id in builds' && Later(builds[id], builds'[id])
  }

  /** No receipt is lost or rewritten. */
  ghost predicate Grows(s: State, s': State) {
    && Extends(s.proposals, s'.proposals) && Extends(s.approvals, s'.approvals) && Extends(s.requests, s'.requests)
    && BuildsMove(s.builds, s'.builds)
  }

  lemma GrowsTransitive(a: State, b: State, c: State)
    requires Grows(a, b) && Grows(b, c)
    ensures Grows(a, c)
  {
    MovesTransitive(a.builds, b.builds, c.builds);
  }

  lemma MovesTransitive(a: map<string, Build>, b: map<string, Build>, c: map<string, Build>)
    requires BuildsMove(a, b) && BuildsMove(b, c)
    ensures BuildsMove(a, c)
  {
  }

  lemma BuildsStay(builds: map<string, Build>)
    ensures BuildsMove(builds, builds)
  {
  }

  // A fresh request.

  lemma PrefixedIdentifier(kind: Kind, rid: string)
    requires IsIdentifier(rid) && |rid| <= 64
    ensures IsIdentifier(Prefix(kind) + rid)
    ensures (Prefix(kind) + rid)[..2] == Prefix(kind) && (Prefix(kind) + rid)[2..] == rid
  {
    var id := Prefix(kind) + rid;
    forall i | 0 <= i < |id|
      ensures 'a' <= id[i] <= 'z' || 'A' <= id[i] <= 'Z' || '0' <= id[i] <= '9' || id[i] == '_' || id[i] == '-'
    {
      if i >= 2 {
        assert id[i] == rid[i - 2];
      }
    }
  }

  lemma AddedKey<V>(m: map<string, V>, k: string, v: V)
    requires k !in m
    ensures |m[k := v]| == |m| + 1
  {
    assert m[k := v].Keys == m.Keys + {k};
    assert |m.Keys| == |m| && |m[k := v].Keys| == |m[k := v]|;
  }

  /** The state with one more request and the record it creates. */
  ghost predicate Added(s: State, s': State, kind: Kind, rid: string, fp: string) {
    var id := Prefix(kind) + rid;
    && s'.requests == s.requests[rid := Record(fp, kind, id)]
    && s'.proposals.Keys == (if kind == OfProposal then s.proposals.Keys + {id} else s.proposals.Keys)
    && s'.approvals.Keys == (if kind == OfApproval then s.approvals.Keys + {id} else s.approvals.Keys)
    && s'.builds.Keys == (if kind == OfBuild then s.builds.Keys + {id} else s.builds.Keys)
  }

  lemma UpdatedKeys<V>(m: map<string, V>, k: string, v: V)
    ensures m[k := v].Keys == m.Keys + {k} && (k !in m ==> Extends(m, m[k := v]))
  {
  }

  lemma FreshName(requests: map<string, Record>, kind: Kind, ids: set<string>, rid: string)
    requires Named(requests, kind, ids) && rid !in requests
    ensures Prefix(kind) + rid !in ids
  {
    var id := Prefix(kind) + rid;
    assert id[2..] == rid;
    assert !NamedBy(requests, kind, id);
  }

  lemma NamesStay(requests: map<string, Record>, kind: Kind, ids: set<string>, rid: string, r: Record)
    requires Named(requests, kind, ids) && rid !in requests
    ensures Named(requests[rid := r], kind, ids)
  {
    forall id | id in ids
      ensures NamedBy(requests[rid := r], kind, id)
    {
      assert NamedBy(requests, kind, id);
    }
  }

  lemma NamesGrow(requests: map<string, Record>, kind: Kind, ids: set<string>, rid: string, fp: string)
    requires Named(requests, kind, ids) && rid !in requests && rid != ""
    ensures var id := Prefix(kind) + rid; Named(requests[rid := Record(fp, kind, id)], kind, ids + {id})
  {
    var id := Prefix(kind) + rid;
    NamesStay(requests, kind, ids, rid, Record(fp, kind, id));
    assert id[..2] == Prefix(kind) && id[2..] == rid;
    assert NamedBy(requests[rid := Record(fp, kind, id)], kind, id);
  }

  lemma AddedNames(s: State, s': State, kind: Kind, rid: string, fp: string)
    requires RecordsSound(s) && Replay(s, rid, fp).None? && Added(s, s', kind, rid, fp)
    ensures Named(s'.requests, OfProposal, s'.proposals.Keys)
    ensures Named(s'.requests, OfApproval, s'.approvals.Keys)
    ensures Named(s'.requests, OfBuild, s'.builds.Keys)
  {
    var r := Record(fp, kind, Prefix(kind) + rid);
    NamesStay(s.requests, OfProposal, s.proposals.Keys, rid, r);
    NamesStay(s.requests, OfApproval, s.approvals.Keys, rid, r);
    NamesStay(s.requests, OfBuild, s.builds.Keys, rid, r);
    match kind
    case OfProposal => NamesGrow(s.requests, kind, s.proposals.Keys, rid, fp);
    case OfApproval => NamesGrow(s.requests, kind, s.approvals.Keys, rid, fp);
    case OfBuild => NamesGrow(s.requests, kind, s.builds.Keys, rid, fp);
  }

  /** A record named by a fresh request keeps every request answered. */
  lemma AddedRecords(s: State, s': State, kind: Kind, rid: string, fp: string)
    requires RecordsSound(s) && Replay(s, rid, fp).None? && IsHash(fp) && Added(s, s', kind, rid, fp)
    ensures RecordsSound(s')
  {
    AddedNames(s, s', kind, rid, fp);
    AddedKey(s.requests, rid, Record(fp, kind, Prefix(kind) + rid));
    forall other | other in s'.requests
      ensures ValidRecord(s', other, s'.requests[other])
    {
      if other != rid {
        assert ValidRecord(s, other, s.requests[other]);
      }
    }
  }

  function WithProposal(s: State, rid: string, fp: string, c: Candidate): State {
    s.(proposals := s.proposals[c.id := c], requests := s.requests[rid := Record(fp, OfProposal, c.id)])
  }

  lemma DraftedIsValid(lib: Lib, cfg: Config, s: State, r: Draft, env: Env)
    requires lib.Valid() && cfg.hashes.Valid() && IsIdentifier(r.requestId) && |r.requestId| <= 64
    requires Drafted(lib, cfg, s, r, env).Ok?
    ensures var c := Drafted(lib, cfg, s, r, env).value;
      c.id == "p_" + r.requestId && ValidCandidate(lib, c.id, c)
  {
    PrefixedIdentifier(OfProposal, r.requestId);
  }

  lemma AddCandidate(lib: Lib, proposals: map<string, Candidate>, c: Candidate)
    requires CandidatesSound(lib, proposals) && |proposals| < 64 && c.id !in proposals
    requires ValidCandidate(lib, c.id, c)
    ensures CandidatesSound(lib, proposals[c.id := c])
  {
    AddedKey(proposals, c.id, c);
  }

  lemma DraftKeeps(lib: Lib, cfg: Config, s: State, r: Draft, env: Env, fp: string)
    requires lib.Valid() && Sound(lib, s) && cfg.hashes.Valid() && IsHash(fp)
    requires Replay(s, r.requestId, fp).None? && Drafted(lib, cfg, s, r, env).Ok?
    ensures var s' := WithProposal(s, r.requestId, fp, Drafted(lib, cfg, s, r, env).value);
      Sound(lib, s') && Grows(s, s')
  {
    DraftedIsValid(lib, cfg, s, r, env);
    AddProposalKeeps(lib, s, r.requestId, fp, Drafted(lib, cfg, s, r, env).value);
  }

  lemma ApprovalsStay(proposals: map<string, Candidate>, proposals': map<string, Candidate>, approvals: map<string, Approval>)
    requires ApprovalsSound(proposals, approvals) && Extends(proposals, proposals')
    ensures ApprovalsSound(proposals', approvals)
  {
    forall id | id in approvals
      ensures ValidApproval(proposals', id, approvals[id])
    {
      assert ValidApproval(proposals, id, approvals[id]);
    }
  }

  lemma AddProposalKeeps(lib: Lib, s: State, rid: string, fp: string, c: Candidate)
    requires Sound(lib, s) && IsHash(fp) && Replay(s, rid, fp).None? && |s.proposals| < 64
    requires c.id == "p_" + rid && ValidCandidate(lib, c.id, c)
    ensures Sound(lib, WithProposal(s, rid, fp, c)) && Grows(s, WithProposal(s, rid, fp, c))
  {
    var s' := WithProposal(s, rid, fp, c);
    FreshName(s.requests, OfProposal, s.proposals.Keys, rid);
    UpdatedKeys(s.proposals, c.id, c);
    UpdatedKeys(s.requests, rid, Record(fp, OfProposal, c.id));
    AddedRecords(s, s', OfProposal, rid, fp);
    AddCandidate(lib, s.proposals, c);
    ApprovalsStay(s.proposals, s'.proposals, s.approvals);
    BuildsStay(s.builds);
  }

  function WithApproval(s: State, rid: string, fp: string, a: Approval): State {
    s.(approvals := s.approvals[a.id := a], requests := s.requests[rid := Record(fp, OfApproval, a.id)])
  }

  lemma ApproveKeeps(lib: Lib, cfg: Config, s: State, r: Approve, env: Env, fp: string)
    requires Sound(lib, s) && IsHash(fp)
    requires Replay(s, r.requestId, fp).None? && Approved(lib, cfg, s, r, env).Ok?
    ensures var s' := WithApproval(s, r.requestId, fp, Approved(lib, cfg, s, r, env).value);
      Sound(lib, s') && Grows(s, s')
  {
    PrefixedIdentifier(OfApproval, r.requestId);
    AddApprovalKeeps(lib, s, r.requestId, fp, Approved(lib, cfg, s, r, env).value);
  }

  lemma BuildsStayValid(lib: Lib, approvals: map<string, Approval>, approvals': map<string, Approval>, builds: map<string, Build>)
    requires BuildsValid(lib, approvals, builds) && Extends(approvals, approvals')
    ensures BuildsValid(lib, approvals', builds)
  {
    forall id | id in builds
      ensures ValidBuild(lib, approvals', id, builds[id])
    {
      assert ValidBuild(lib, approvals, id, builds[id]);
    }
  }

  lemma AddApproval(proposals: map<string, Candidate>, approvals: map<string, Approval>, a: Approval)
    requires ApprovalsSound(proposals, approvals) && ValidApproval(proposals, a.id, a)
    ensures ApprovalsSound(proposals, approvals[a.id := a])
  {
    var approvals' := approvals[a.id := a];
    forall id | id in approvals'
      ensures ValidApproval(proposals, id, approvals'[id])
    {
      assert id != a.id ==> ValidApproval(proposals, id, approvals[id]);
    }
  }

  lemma AddApprovalSound(lib: Lib, s: State, rid: string, fp: string, a: Approval)
    requires Sound(lib, s) && IsHash(fp) && Replay(s, rid, fp).None? && "a_" + rid !in s.approvals
    requires a.id == "a_" + rid && ValidApproval(s.proposals, a.id, a)
    ensures Sound(lib, WithApproval(s, rid, fp, a))
  {
    var s' := WithApproval(s, rid, fp, a);
    UpdatedKeys(s.approvals, a.id, a);
    assert RecordsSound(s') by { AddedRecords(s, s', OfApproval, rid, fp); }
    assert ApprovalsSound(s'.proposals, s'.approvals) by { AddApproval(s.proposals, s.approvals, a); }
    assert BuildsValid(lib, s'.approvals, s'.builds) by { BuildsStayValid(lib, s.approvals, s'.approvals, s.builds); }
  }

  lemma AddApprovalKeeps(lib: Lib, s: State, rid: string, fp: string, a: Approval)
    requires Sound(lib, s) && IsHash(fp) && Replay(s, rid, fp).None?
    requires a.id == "a_" + rid && ValidApproval(s.proposals, a.id, a)
    ensures Sound(lib, WithApproval(s, rid, fp, a)) && Grows(s, WithApproval(s, rid, fp, a))
  {
    FreshName(s.requests, OfApproval, s.approvals.Keys, rid);
    AddApprovalSound(lib, s, rid, fp, a);
    UpdatedKeys(s.approvals, a.id, a);
    UpdatedKeys(s.requests, rid, Record(fp, OfApproval, a.id));
    BuildsStay(s.builds);
  }

  function WithBuild(s: State, rid: string, fp: string, b: Build): State {
    s.(builds := s.builds[b.id := b], requests := s.requests[rid := Record(fp, OfBuild, b.id)])
  }

  lemma QueueKeeps(lib: Lib, cfg: Config, s: State, r: BuildRequest, env: Env, fp: string)
    requires Sound(lib, s) && IsHash(fp)
    requires Replay(s, r.requestId, fp).None? && Queueable(lib, cfg, s, r, env).Ok?
    ensures var s' := WithBuild(s, r.requestId, fp, Queueable(lib, cfg, s, r, env).value);
      Sound(lib, s') && Grows(s, s')
  {
    PrefixedIdentifier(OfBuild, r.requestId);
    AddBuildKeeps(lib, s, r.requestId, fp, Queueable(lib, cfg, s, r, env).value);
  }

  lemma AddValidBuild(lib: Lib, approvals: map<string, Approval>, builds: map<string, Build>, b: Build)
    requires BuildsValid(lib, approvals, builds) && ValidBuild(lib, approvals, b.id, b)
    ensures BuildsValid(lib, approvals, builds[b.id := b])
  {
    var builds' := builds[b.id := b];
    forall id | id in builds'
      ensures ValidBuild(lib, approvals, id, builds'[id])
    {
      assert id != b.id ==> ValidBuild(lib, approvals, id, builds[id]);
    }
  }

  lemma AddActive(builds: map<string, Build>, b: Build)
    requires b.id !in builds && b.stage == Queued
    ensures ActiveIn(builds[b.id := b]) == ActiveIn(builds) + {b.id}
    ensures OneBuilding(builds) ==> OneBuilding(builds[b.id := b])
  {
  }

  lemma AddSpent(builds: map<string, Build>, b: Build)
    requires OneShot(builds) && forall id :: id in builds ==> builds[id].approvalId != b.approvalId
    ensures OneShot(builds[b.id := b])
  {
  }

  lemma AddBuild(lib: Lib, approvals: map<string, Approval>, builds: map<string, Build>, b: Build)
    requires BuildsSound(lib, approvals, builds) && b.id !in builds && b.stage == Queued && b.error.None?
    requires ValidBuild(lib, approvals, b.id, b) && |ActiveIn(builds)| < 4
    requires forall id :: id in builds ==> builds[id].approvalId != b.approvalId
    ensures BuildsSound(lib, approvals, builds[b.id := b])
  {
    AddValidBuild(lib, approvals, builds, b);
    AddActive(builds, b);
    AddSpent(builds, b);
  }

  lemma AddBuildSound(lib: Lib, s: State, rid: string, fp: string, b: Build)
    requires Sound(lib, s) && IsHash(fp) && Replay(s, rid, fp).None? && "b_" + rid !in s.builds
    requires b.id == "b_" + rid && b.stage == Queued && b.error.None? && ValidBuild(lib, s.approvals, b.id, b)
    requires |ActiveIn(s.builds)| < 4 && forall id :: id in s.builds ==> s.builds[id].approvalId != b.approvalId
    ensures Sound(lib, WithBuild(s, rid, fp, b))
  {
    var s' := WithBuild(s, rid, fp, b);
    assert RecordsSound(s') by {
      UpdatedKeys(s.builds, b.id, b);
      AddedRecords(s, s', OfBuild, rid, fp);
    }
    assert BuildsSound(lib, s'.approvals, s'.builds) by { AddBuild(lib, s.approvals, s.builds, b); }
  }

  lemma AddBuildGrows(builds: map<string, Build>, b: Build)
    requires b.id !in builds
    ensures BuildsMove(builds, builds[b.id := b])
  {
  }

  lemma AddBuildKeeps(lib: Lib, s: State, rid: string, fp: string, b: Build)
    requires Sound(lib, s) && IsHash(fp) && Replay(s, rid, fp).None?
    requires b.id == "b_" + rid && b.stage == Queued && b.error.None? && ValidBuild(lib, s.approvals, b.id, b)
    requires |ActiveBuilds(s)| < 4 && !Funds(s, b.approvalId)
    ensures Sound(lib, WithBuild(s, rid, fp, b)) && Grows(s, WithBuild(s, rid, fp, b))
  {
    FreshName(s.requests, OfBuild, s.builds.Keys, rid);
    assert ActiveIn(s.builds) == ActiveBuilds(s);
    AddBuildSound(lib, s, rid, fp, b);
    AddBuildGrows(s.builds, b);
    UpdatedKeys(s.requests, rid, Record(fp, OfBuild, b.id));
  }

  // A build moving on.

  function WithStage(s: State, b: Build): State {
    s.(builds := s.builds[b.id := b])
  }

  /** States with the same ids have the same records. */
  lemma SameKeysRecords(s: State, s': State)
    requires RecordsSound(s) && s'.requests == s.requests && s'.proposals == s.proposals && s'.approvals == s.approvals
    requires s'.builds.Keys == s.builds.Keys
    ensures RecordsSound(s')
  {
    forall rid | rid in s'.requests
      ensures ValidRecord(s', rid, s'.requests[rid])
    {
      assert ValidRecord(s, rid, s.requests[rid]);
    }
  }

  lemma MoveBuild(lib: Lib, approvals: map<string, Approval>, builds: map<string, Build>, b: Build)
    requires BuildsSound(lib, approvals, builds) && b.id in builds && Later(builds[b.id], b)
    requires (b.stage == Built ==> b.output.Some? && lib.outputPath(b.output.value)) && (b.stage != Built ==> b.output.None?)
    requires b.stage == Building ==> forall id :: id in builds && builds[id].stage == Building ==> id == b.id
    requires Active(b.stage) ==> Active(builds[b.id].stage) && b.error.None?
    ensures BuildsSound(lib, approvals, builds[b.id := b]) && BuildsMove(builds, builds[b.id := b])
  {
    var builds' := builds[b.id := b];
    assert ActiveIn(builds') <= ActiveIn(builds);
    SubsetSize(ActiveIn(builds'), ActiveIn(builds));
    forall id | id in builds'
      ensures ValidBuild(lib, approvals, id, builds'[id])
    {
      assert ValidBuild(lib, approvals, id, builds[id]);
    }
    assert OneShot(builds');
    assert OneBuilding(builds') && Unfailed(builds');
  }

  /** Moving one build forward keeps everything, provided a build that starts is
      the only one building. */
  lemma MoveKeeps(lib: Lib, s: State, b: Build)
    requires Sound(lib, s) && b.id in s.builds && Later(s.builds[b.id], b)
    requires (b.stage == Built ==> b.output.Some? && lib.outputPath(b.output.value)) && (b.stage != Built ==> b.output.None?)
    requires b.stage == Building ==> forall id :: id in s.builds && s.builds[id].stage == Building ==> id == b.id
    requires Active(b.stage) ==> Active(s.builds[b.id].stage) && b.error.None?
    ensures Sound(lib, WithStage(s, b)) && Grows(s, WithStage(s, b))
  {
    assert WithStage(s, b).builds.Keys == s.builds.Keys;
    SameKeysRecords(s, WithStage(s, b));
    MoveBuild(lib, s.approvals, s.builds, b);
  }

  lemma RecoverBuilds(lib: Lib, s: State)
    requires BuildsSound(lib, s.approvals, s.builds)
    ensures var builds := Recovered(s).builds;
      BuildsSound(lib, s.approvals, builds) && BuildsMove(s.builds, builds) && ActiveIn(builds) == {} && builds.Keys == s.builds.Keys
  {
    var builds := Recovered(s).builds;
    forall id | id in builds
      ensures ValidBuild(lib, s.approvals, id, builds[id])
    {
      assert ValidBuild(lib, s.approvals, id, s.builds[id]);
    }
    assert ActiveIn(builds) == {};
  }

  lemma RecoverKeeps(lib: Lib, s: State)
    requires Sound(lib, s)
    ensures Sound(lib, Recovered(s)) && Grows(s, Recovered(s)) && ActiveIn(Recovered(s).builds) == {}
  {
    RecoverBuilds(lib, s);
    SameKeysRecords(s, Recovered(s));
  }
}
