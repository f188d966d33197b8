/** The control service's `Engine` object and its receipts file, as the methods that
    update them in place. Each method is proved to compute what the engine's
    specification says. */
module Control {
  import opened Wrappers
  import opened Json
  import opened Order
  import opened Engine
  import D = Diff

  /** The receipts file. Readers see `file`; a power loss leaves `durable`. */
  class Receipts {
    const lib: Lib
    var file: State
    var durable: State

    constructor (lib: Lib, s: State)
      ensures this.lib == lib && View() == Disk(s, s)
    {
      this.lib := lib;
      file, durable := s, s;
    }

    ghost function View(): Disk
      reads this
    {
      Disk(file, durable)
    }

    /** Write and sync a temporary, rename it over the file and sync the directory. */
    method Atomic(s: State, fate: Fate) returns (ok: bool)
      modifies this
      ensures View() == Replace(old(View()), s, Ending(lib, s, fate))
      ensures ok <==> fate == Synced && Fits(lib, s)
    {
      if lib.size(s) > MAX_STATE {
        return false;
      }
      if fate == Kept {
        return false;
      }
      file := s;
      if fate == Unsynced {
        return false;
      }
      durable := file;
      return true;
    }
  }

  lemma {:induction false} SortedInOrder(keys: set<string>, i: nat, j: nat)
    requires i < j < |Sorted(keys)|
    ensures Leq(Sorted(keys)[i], Sorted(keys)[j])
    decreases |keys|
  {
    hide Leq, Sorted;
    LeastExists(keys);
    var m :| IsLeast(m, keys);
    LeastIsSorted(keys, m);
    assert Sorted(keys)[j] in keys;
    if i > 0 {
      SortedInOrder(keys - {m}, i - 1, j - 1);
    }
  }

  /** The first queued build in the order of the map. */
  method FirstQueued(s: State) returns (found: Option<string>)
    ensures found.None? <==> QueuedBuilds(s) == {}
    ensures found.Some? ==> IsLeast(found.value, QueuedBuilds(s))
  {
    var ids := KeysInOrder(s.builds.Keys);
    for i := 0 to |ids|
      invariant forall j :: 0 <= j < i ==> ids[j] !in QueuedBuilds(s)
    {
      if s.builds[ids[i]].stage == Queued {
        forall id | id in QueuedBuilds(s)
          ensures Leq(ids[i], id)
        {
          var j :| 0 <= j < |ids| && ids[j] == id;
          if j == i {
            LeqTotal(id, id);
          } else {
            SortedInOrder(s.builds.Keys, i, j);
          }
        }
        return Some(ids[i]);
      }
    }
    return None;
  }

  method Changes(before: Json, after: Json) returns (changes: seq<D.Report>)
    ensures changes == D.Reports("", D.Difference(before, after))
  {
    changes := D.Diff(before, after, "", []);
  }

  method CheckCandidate(lib: Lib, id: string, c: Candidate) returns (ok: bool)
    ensures ok <==> ValidCandidate(lib, id, c)
  {
    var changes := Changes(c.baseConfiguration, c.configuration);
    ok := && IsIdentifier(id) && id == c.id && lib.fromToml(c.toml) == Some(c.configuration)
          && lib.revision(c.configuration) == c.revision && lib.revision(c.baseConfiguration) == c.base
          && changes == c.changes && c.hashes.Valid();
  }

  method CheckCandidates(lib: Lib, proposals: map<string, Candidate>) returns (ok: bool)
    ensures ok <==> forall id {:trigger ValidCandidate(lib, id, proposals[id])} :: id in proposals ==> ValidCandidate(lib, id, proposals[id])
  {
    var left := proposals.Keys;
    while left != {}
      invariant left <= proposals.Keys
      invariant forall id {:trigger ValidCandidate(lib, id, proposals[id])} :: id in proposals && id !in left ==> ValidCandidate(lib, id, proposals[id])
      decreases |left|
    {
      var id :| id in left;
      ok := CheckCandidate(lib, id, proposals[id]);
      if !ok {
        return;
      }
      left := left - {id};
    }
    ok := true;
  }

  /** The load-time validator. */
  method Check(lib: Lib, s: State) returns (ok: bool)
    ensures ok <==> Validate(lib, s)
  {
    if |s.proposals| > 64 || |s.requests| > 1024 || |s.approvals| > 1024 || |s.builds| > 1024 {
      return false;
    }
    ok := CheckCandidates(lib, s.proposals);
    if !ok {
      return;
    }
    ok := && (forall id {:trigger ValidApproval(s.proposals, id, s.approvals[id])} :: id in s.approvals ==> ValidApproval(s.proposals, id, s.approvals[id]))
          && (forall id {:trigger ValidBuild(lib, s.approvals, id, s.builds[id])} :: id in s.builds ==> ValidBuild(lib, s.approvals, id, s.builds[id]))
          && (forall rid {:trigger ValidRecord(s, rid, s.requests[rid])} :: rid in s.requests ==> ValidRecord(s, rid, s.requests[rid]));
  }

  class Service {
    const config: Config
    const store: Receipts
    var state: State
    var poisoned: bool

    constructor (config: Config, store: Receipts, s: State)
      ensures this.config == config && this.store == store && Memory() == Mem(config, s, false)
    {
      this.config, this.store := config, store;
      state, poisoned := s, false;
    }

    ghost function Memory(): Mem
      reads this
    {
      Mem(config, state, poisoned)
    }

    /** Publish the state, closing this writer for good if anything fails. */
    method Persist(fate: Fate) returns (ok: bool)
      modifies this`poisoned, store
      ensures ok <==> !old(poisoned) && fate == Synced && Fits(store.lib, state)
      ensures poisoned == !ok
      ensures store.View() == if old(poisoned) then old(store.View()) else Replace(old(store.View()), state, Ending(store.lib, state, fate))
    {
      if poisoned {
        return false;
      }
      poisoned := true;
      ok := store.Atomic(state, fate);
      if ok {
        poisoned := false;
      }
    }

    /** Everything that may refuse a draft, and the candidate it becomes. */
    method Accept(r: Draft, env: Env) returns (c: Result<Candidate, nat>)
      ensures c == Drafted(store.lib, config, state, r, env)
    {
      if |state.proposals| >= 64 {
        return Err(429);
      }
      var hashes, base := CurrentHashes(store.lib, config, env), Current(env);
      if hashes.None? || base.None? {
        return Err(503);
      }
      if store.lib.revision(base.value) != r.base {
        return Err(409);
      }
      if !Enforced(config.minimum, r.configuration, base.value) {
        return Err(403);
      }
      var toml := store.lib.toToml(r.configuration);
      if toml.None? || !env.tomlFits {
        return Err(400);
      }
      if env.normalized != Some(r.configuration) {
        return Err(422);
      }
      var changes := Changes(base.value, r.configuration);
      if !env.responseFits {
        return Err(413);
      }
      return Ok(Candidate("p_" + r.requestId, r.base, store.lib.revision(r.configuration), r.configuration, changes,
                          hashes.value, base.value, toml.value));
    }

    method Propose(allowed: bool, r: Draft, env: Env) returns (answer: Answer)
      modifies this, store
      ensures Step(Memory(), store.View(), answer) == Engine.Propose(store.lib, old(Memory()), old(store.View()), allowed, r, env)
    {
      if poisoned {
        return Refused(503);
      }
      if !allowed {
        return Refused(403);
      }
      var fp := store.lib.revision(DraftDocument(r));
      var replay := Replay(state, r.requestId, fp);
      if replay.Some? {
        return replay.value;
      }
      var accepted := Accept(r, env);
      if accepted.Err? {
        return Refused(accepted.error);
      }
      var c := accepted.value;
      state := state.(proposals := state.proposals[c.id := c], requests := state.requests[r.requestId := Record(fp, OfProposal, c.id)]);
      var ok := Persist(env.fate);
      return if ok then Served(OfProposal, c.id) else Refused(503);
    }

    method Approve(allowed: bool, r: Engine.Approve, env: Env) returns (answer: Answer)
      modifies this, store
      ensures Step(Memory(), store.View(), answer) == ApproveProposal(store.lib, old(Memory()), old(store.View()), allowed, r, env)
    {
      if poisoned {
        return Refused(503);
      }
      if !IsIdentifier(r.proposalId) {
        return Refused(404);
      }
      if !allowed {
        return Refused(403);
      }
      var fp := store.lib.revision(ApproveDocument(r));
      var replay := Replay(state, r.requestId, fp);
      if replay.Some? {
        return replay.value;
      }
      var hashes, current := CurrentHashes(store.lib, config, env), Current(env);
      if hashes.None? || current.None? {
        return Refused(503);
      }
      var base := store.lib.revision(current.value);
      if r.proposalId !in state.proposals {
        return Refused(404);
      }
      var p := state.proposals[r.proposalId];
      if !Enforced(config.minimum, p.configuration, current.value) {
        return Refused(403);
      }
      if r.base != base || p.base != base || r.revision != p.revision || r.hashes != hashes.value || p.hashes != hashes.value {
        return Refused(409);
      }
      var id := "a_" + r.requestId;
      var a := Approval(id, r.proposalId, base, p.revision, hashes.value);
      state := state.(approvals := state.approvals[id := a], requests := state.requests[r.requestId := Record(fp, OfApproval, id)]);
      var ok := Persist(env.fate);
      return if ok then Served(OfApproval, id) else Refused(503);
    }

    method Queue(allowed: bool, r: BuildRequest, env: Env) returns (answer: Answer)
      modifies this, store
      ensures Step(Memory(), store.View(), answer) == QueueBuild(store.lib, old(Memory()), old(store.View()), allowed, r, env)
    {
      if poisoned {
        return Refused(503);
      }
      if !allowed {
        return Refused(403);
      }
      var fp := store.lib.revision(BuildDocument(r));
      var replay := Replay(state, r.requestId, fp);
      if replay.Some? {
        return replay.value;
      }
      if r.approvalId !in state.approvals {
        return Refused(409);
      }
      var a := state.approvals[r.approvalId];
      if config.builder == Null {
        return Refused(503);
      }
      var hashes, current := CurrentHashes(store.lib, config, env), Current(env);
      if hashes.None? || current.None? {
        return Refused(503);
      }
      var base := store.lib.revision(current.value);
      if r.proposalId !in state.proposals {
        return Refused(409);
      }
      var p := state.proposals[r.proposalId];
      if !Enforced(config.minimum, p.configuration, current.value) {
        return Refused(403);
      }
      if a.proposalId != r.proposalId || a.base != base || a.revision != r.revision || a.hashes != hashes.value
         || r.hashes != hashes.value || p.hashes != hashes.value || p.base != base || p.revision != r.revision {
        return Refused(409);
      }
      if |ActiveBuilds(state)| >= 4 {
        return Refused(429);
      }
      if Funds(state, r.approvalId) {
        return Refused(409);
      }
      var id := "b_" + r.requestId;
      var b := Build(id, r.proposalId, r.revision, Queued, None, None, r.approvalId, hashes.value);
      state := state.(builds := state.builds[id := b], requests := state.requests[r.requestId := Record(fp, OfBuild, id)]);
      var ok := Persist(env.fate);
      return if ok then Served(OfBuild, id) else Refused(503);
    }

    method Finish(id: string, output: Option<string>, fate: Fate) returns (ok: bool)
      modifies this, store
      ensures var step := Engine.Finish(store.lib, old(Memory()), old(store.View()), id, output, fate);
        Memory() == step.mem && store.View() == step.disk && (ok <==> step.answer.Served?)
    {
      if id !in state.builds {
        return false;
      }
      var b := state.builds[id];
      if output.Some? {
        b := b.(stage := Built, output := output);
      } else {
        b := b.(stage := Failed, error := Some("build_failed_or_approval_invalidated"));
      }
      state := state.(builds := state.builds[id := b]);
      ok := Persist(fate);
    }

    /** Claim durably, then let the builder run. */
    method Claim(env: Env) returns (work: Option<Work>)
      modifies this, store
      ensures Claimed(Memory(), store.View(), work) == Engine.Claim(store.lib, old(Memory()), old(store.View()), env)
    {
      if poisoned {
        return None;
      }
      if exists id :: id in state.builds && state.builds[id].stage == Building {
        return None;
      }
      var found := FirstQueued(state);
      if found.None? {
        return None;
      }
      var id := found.value;
      OneLeast(QueuedBuilds(state), id);
      work := ClaimQueued(id, env);
    }

    method ClaimQueued(id: string, env: Env) returns (work: Option<Work>)
      requires id in state.builds && !poisoned
      modifies this, store
      ensures Claimed(Memory(), store.View(), work) == ClaimBuild(store.lib, old(Memory()), old(store.View()), id, env)
    {
      var b := state.builds[id];
      if !env.sourceReadable {
        var _ := Finish(id, None, env.fate);
        return None;
      }
      if b.proposalId !in state.proposals {
        return None;
      }
      var c := state.proposals[b.proposalId];
      if !StillApproved(store.lib, config, b, c, env) {
        var _ := Finish(id, None, env.fate);
        return None;
      }
      if config.builder == Null {
        return None;
      }
      state := state.(builds := state.builds[id := b.(stage := Building)]);
      var ok := Persist(env.fate);
      return if ok then Some(Work(id, c.toml)) else None;
    }
  }

  lemma OneLeast(ids: set<string>, id: string)
    requires IsLeast(id, ids)
    ensures forall other :: IsLeast(other, ids) ==> other == id
  {
    forall other | IsLeast(other, ids)
      ensures other == id
    {
      LeqAntisymmetric(id, other);
    }
  }

  /** Load, validate, retire whatever was in flight and publish that. */
  method OpenState(cfg: Config, store: Receipts, env: Env) returns (engine: Option<Service>)
    modifies store
    ensures var (m, d) := Open(store.lib, cfg, old(store.View()), env);
      && store.View() == d && (engine.Some? <==> m.Some?)
      && (engine.Some? ==> fresh(engine.value) && engine.value.Memory() == m.value && engine.value.store == store)
  {
    if store.lib.size(store.file) > MAX_STATE {
      return None;
    }
    var ok := Check(store.lib, store.file);
    if !ok {
      return None;
    }
    var e := new Service(cfg, store, Recovered(store.file));
    ok := e.Persist(env.fate);
    if !ok || CurrentHashes(store.lib, cfg, env).None? {
      return None;
    }
    return Some(e);
  }
}
