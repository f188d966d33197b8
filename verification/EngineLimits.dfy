/** The limit on the receipts file: recovery makes the file longer, so an image that
    was written can be one that is never opened again. */
module EngineLimits {
  import opened Wrappers
  import opened Json
  import opened Order
  import opened Engine
  import opened EngineState
  import opened EngineRuns
  import D = Diff

  function BuildingBuilds(s: State): set<string> {
    set id | id in s.builds && s.builds[id].stage == Stage.Building
  }

  /** Recovery writes `unknown` for `queued` or `building`, and a reason of 31
      characters in quotes for `null`. */
  function Growth(s: State): nat {
    30 * |QueuedBuilds(s)| + 28 * |BuildingBuilds(s)|
  }

  ghost predicate CountsBytes(lib: Lib) {
    forall s: State :: Unfailed(s.builds) ==> lib.size(Recovered(s)) == lib.size(s) + Growth(s)
  }

  lemma GrowthIsSmall(s: State)
    requires |ActiveIn(s.builds)| <= 4
    ensures Growth(s) <= 120
  {
    assert ActiveIn(s.builds) == QueuedBuilds(s) + BuildingBuilds(s);
    assert QueuedBuilds(s) !! BuildingBuilds(s);
  }

  /** Opening succeeds exactly if the image's length and what recovery adds to it
      stay within the limit, the write is synced and the deployment has not
      drifted. What recovery adds is at most 120 bytes. */
  lemma OpensIfRecoveryFits(lib: Lib, labels: seq<Label>, cfg: Config, env: Env)
    requires lib.Valid() && CountsBytes(lib)
    ensures var d := Run(lib, labels).disk;
      && Growth(d.file) <= 120
      && (Open(lib, cfg, d, env).0.Some? <==>
            lib.size(d.file) + Growth(d.file) <= MAX_STATE && env.fate == Synced && CurrentHashes(lib, cfg, env).Some?)
  {
    RunSound(lib, labels);
    var d := Run(lib, labels).disk;
    GrowthIsSmall(d.file);
    OpenEffect(lib, d, cfg, env);
  }

  /** No service runs, and what is on disk is too long once recovered. */
  ghost predicate Stranded(lib: Lib, w: World) {
    w.engine.None? && w.disk.file == w.disk.durable && !Fits(lib, Recovered(w.disk.file))
  }

  lemma StrandedStep(lib: Lib, w: World, l: Label)
    requires Stranded(lib, w)
    ensures Apply(lib, w, l).engine.None? && Apply(lib, w, l).disk == w.disk
  {
  }

  /** Such an image is refused at every restart, whatever is tried. */
  lemma {:induction false} StrandedForever(lib: Lib, labels: seq<Label>, k: nat)
    requires k <= |labels| && Stranded(lib, Run(lib, labels[..k]))
    ensures Run(lib, labels).engine.None? && Run(lib, labels).disk == Run(lib, labels[..k]).disk
    decreases |labels|
  {
    if k == |labels| {
      assert labels[..k] == labels;
    } else {
      var before := labels[..|labels| - 1];
      assert before[..k] == labels[..k];
      StrandedForever(lib, before, k);
      StrandedStep(lib, Run(lib, before), labels[|labels| - 1]);
    }
  }

  // A service that runs into it: 64 proposals of one configuration of 170 KiB, one
  // approval and one build.

  function Repeat(c: char, n: nat): string {
    seq(n, _ => c)
  }

  const HASH: string := Repeat('0', 64)
  const HASHES: Hashes := Hashes(HASH, HASH, HASH)
  const TEXT: string := Repeat('x', 174451)
  const CONFIGURATION: Json := Obj(map["a" := Str(TEXT)])
  const DEPLOYMENT: Config := Config(HASHES, Null, Str("builder"), "tentaflake.toml", 1, Balanced)
  const CALM: Env := Env(true, HASH, true, Some(CONFIGURATION), Some(CONFIGURATION), true, true, Synced)

  /** `n` entries of an object, with the commas between them. */
  function Entries(n: nat, each: nat): nat {
    if n == 0 then 0 else n * each + n - 1
  }

  /** The length of the receipts when every candidate is of this configuration, and
      the requests have the names below. A build's own request is 11 bytes shorter
      than the others, and a build takes 2 or 30 more once it is building or done. */
  function Length(s: State): nat {
    76 + Entries(|s.proposals|, 524016) + Entries(|s.approvals|, 629) + Entries(|s.builds|, 669) + Entries(|s.requests|, 241)
      + 2 * |BuildingBuilds(s)| + 30 * |DoneBuilds(s)|
  }

  function DoneBuilds(s: State): set<string> {
    set id | id in s.builds && !Active(s.builds[id].stage)
  }

  function Sample(): Lib {
    Lib(_ => HASH, v => if v == CONFIGURATION then Some("a = \"" + TEXT + "\"\n") else None, _ => Some(CONFIGURATION), _ => false, s => Length(s))
  }

  lemma SampleIsValid()
    ensures Sample().Valid()
  {
  }

  lemma Partition(s: State)
    ensures |s.builds| == |QueuedBuilds(s)| + |BuildingBuilds(s)| + |DoneBuilds(s)|
  {
    assert s.builds.Keys == QueuedBuilds(s) + BuildingBuilds(s) + DoneBuilds(s);
    assert QueuedBuilds(s) !! BuildingBuilds(s) && QueuedBuilds(s) + BuildingBuilds(s) !! DoneBuilds(s);
  }

  lemma AllDone(s: State)
    ensures var r := Recovered(s);
      |r.builds| == |s.builds| && |BuildingBuilds(r)| == 0 && |DoneBuilds(r)| == |s.builds|
  {
    var r := Recovered(s);
    assert r.builds.Keys == s.builds.Keys && |r.builds.Keys| == |r.builds| && |s.builds.Keys| == |s.builds|;
    assert BuildingBuilds(r) == {} && DoneBuilds(r) == s.builds.Keys;
  }

  lemma LengthGrows(s: State)
    ensures Length(Recovered(s)) == Length(s) + Growth(s)
  {
    hide QueuedBuilds, BuildingBuilds, DoneBuilds;
    Partition(s);
    AllDone(s);
  }

  lemma SampleCounts()
    ensures CountsBytes(Sample())
  {
    hide Recovered, Length, Growth;
    forall s: State | Unfailed(s.builds)
      ensures Sample().size(Recovered(s)) == Sample().size(s) + Growth(s)
    {
      LengthGrows(s);
    }
  }

  function Name(i: nat): string
    requires i <= 64
  {
    Repeat('a', i) + Repeat('b', 64 - i)
  }

  /** `rid` is one of the first `n` names. */
  predicate Early(rid: string, n: nat) {
    |rid| == 64 && forall j :: 0 <= j < 64 && n <= j + 1 ==> rid[j] == 'b'
  }

  lemma NamesInOrder(n: nat)
    requires n < 64
    ensures Early(Name(n), n + 1) && (n > 0 ==> !Early(Name(n), n))
  {
    assert n > 0 ==> Name(n)[n - 1] == 'a';
  }

  function Drafting(i: nat): Draft
    requires i <= 64
  {
    Draft(Name(i), HASH, CONFIGURATION)
  }

  ghost function Stored(i: nat): Candidate
    requires i <= 64
  {
    Candidate("p_" + Name(i), HASH, HASH, CONFIGURATION, D.Reports("", D.Difference(CONFIGURATION, CONFIGURATION)),
              HASHES, CONFIGURATION, "a = \"" + TEXT + "\"\n")
  }

  /** The receipts after `n` proposals. */
  ghost function Filled(n: nat): State
    requires n <= 64
  {
    if n == 0 then EMPTY
    else WithProposal(Filled(n - 1), Name(n - 1), HASH, Stored(n - 1))
  }

  ghost predicate Shape(s: State, n: nat) {
    && |s.proposals| == n && |s.requests| == n && s.approvals == map[] && s.builds == map[]
    && (forall rid :: rid in s.requests ==> Early(rid, n))
    && (forall id :: id in s.proposals ==> |id| > 2 && Early(id[2..], n))
    && (n > 0 ==> "p_" + Name(0) in s.proposals && s.proposals["p_" + Name(0)] == Stored(0))
  }

  lemma NewName(s: State, n: nat)
    requires n < 64 && Shape(s, n)
    ensures Name(n) !in s.requests && "p_" + Name(n) !in s.proposals
  {
    NamesInOrder(n);
    assert ("p_" + Name(n))[2..] == Name(n);
  }

  lemma ShapeGrows(s: State, n: nat)
    requires n < 64 && Shape(s, n)
    ensures Shape(WithProposal(s, Name(n), HASH, Stored(n)), n + 1)
  {
    hide Name;
    NamesInOrder(n);
    NewName(s, n);
    assert ("p_" + Name(n))[2..] == Name(n);
  }

  lemma {:induction false} FilledShape(n: nat)
    requires n <= 64
    ensures Shape(Filled(n), n)
  {
    hide Shape;
    if n == 0 {
      EmptyShape();
    } else {
      FilledShape(n - 1);
      ShapeGrows(Filled(n - 1), n - 1);
    }
  }

  lemma EmptyShape()
    ensures Shape(EMPTY, 0)
  {
  }

  /** A service that holds and has published `s`. */
  ghost predicate Serves(w: World, s: State) {
    w.disk == Disk(s, s) && w.engine == Some(Process(Mem(DEPLOYMENT, s, false), {}))
  }

  lemma Begins()
    ensures Serves(Apply(Sample(), START, Opening(DEPLOYMENT, CALM)), EMPTY)
  {
  }

  lemma FilledFits(s: State, n: nat)
    requires n <= 64 && Shape(s, n)
    ensures Fits(Sample(), s)
  {
    assert BuildingBuilds(s) == {} && DoneBuilds(s) == {};
  }

  lemma Balances()
    ensures Enforced(Balanced, CONFIGURATION, CONFIGURATION)
  {
  }

  lemma Drafts(s: State, n: nat)
    requires n < 64 && |s.proposals| < 64
    ensures Drafted(Sample(), DEPLOYMENT, s, Drafting(n), CALM) == Ok(Stored(n))
  {
    hide Enforced, D.Reports, D.Difference, Name, Repeat, Length, PolicyDocument;
    Balances();
  }

  lemma Unseen(s: State, n: nat)
    requires n < 64 && Shape(s, n)
    ensures Replay(s, Name(n), HASH).None?
  {
    NewName(s, n);
    assert IsIdentifier(Name(n));
  }

  lemma Proposed(s: State, n: nat)
    requires n < 64 && Shape(s, n)
    ensures var s' := WithProposal(s, Name(n), HASH, Stored(n));
      Propose(Sample(), Mem(DEPLOYMENT, s, false), Disk(s, s), true, Drafting(n), CALM)
        == Step(Mem(DEPLOYMENT, s', false), Disk(s', s'), Served(OfProposal, Stored(n).id))
  {
    hide Drafted, Replay, Fits, Name, Stored, Repeat, DraftDocument;
    Unseen(s, n);
    Drafts(s, n);
    ShapeGrows(s, n);
    FilledFits(WithProposal(s, Name(n), HASH, Stored(n)), n + 1);
  }

  lemma Proposes(w: World, n: nat)
    requires n < 64 && Serves(w, Filled(n))
    ensures Serves(Apply(Sample(), w, Serving(true, Proposal(Drafting(n)), CALM)), Filled(n + 1))
  {
    hide Shape, Propose, Name;
    FilledShape(n);
    Proposed(Filled(n), n);
  }

  // The approval and the build.

  const APPROVING: string := Repeat('c', 64)
  const BUILDING: string := Repeat('d', 60)

  ghost const GRANT: Approval := Approval("a_" + APPROVING, "p_" + Name(0), HASH, HASH, HASHES)
  ghost const ORDER: Build := Build("b_" + BUILDING, "p_" + Name(0), HASH, Queued, None, None, "a_" + APPROVING, HASHES)

  ghost const APPROVE: Approve := Approve(APPROVING, "p_" + Name(0), HASH, HASH, HASHES)
  ghost const BUILD: BuildRequest := BuildRequest(BUILDING, "p_" + Name(0), "a_" + APPROVING, HASH, HASHES)

  ghost const GRANTED: State := WithApproval(Filled(64), APPROVING, HASH, GRANT)
  ghost const ORDERED: State := WithBuild(GRANTED, BUILDING, HASH, ORDER)

  lemma GrantedShape()
    ensures |GRANTED.proposals| == 64 && |GRANTED.requests| == 65 && APPROVING !in Filled(64).requests && BUILDING !in GRANTED.requests
    ensures |GRANTED.approvals| == 1 && GRANTED.builds == map[] && Length(GRANTED) <= MAX_STATE
    ensures "p_" + Name(0) in Filled(64).proposals && Filled(64).proposals["p_" + Name(0)] == Stored(0)
  {
    hide Stored, Name, Filled;
    FilledShape(64);
    assert APPROVING[63] == 'c';
    assert BuildingBuilds(GRANTED) == {} && DoneBuilds(GRANTED) == {};
  }

  /** The last byte of the limit is taken. */
  lemma OrderedLength()
    ensures Length(ORDERED) == MAX_STATE && Growth(ORDERED) == 30
  {
    hide Stored, Name, Filled;
    GrantedShape();
    assert BuildingBuilds(ORDERED) == {} && DoneBuilds(ORDERED) == {} && QueuedBuilds(ORDERED) == {ORDER.id};
  }

  lemma Approves(w: World)
    requires Serves(w, Filled(64))
    ensures Serves(Apply(Sample(), w, Serving(true, Approving(APPROVE), CALM)), GRANTED)
  {
    hide Name, Filled, Length, Enforced, PolicyDocument, ApproveDocument, Repeat, IsIdentifier;
    GrantedShape();
    Identifiers();
    Balances();
  }

  lemma Identifiers()
    ensures IsIdentifier("p_" + Name(0)) && IsIdentifier(APPROVING) && IsIdentifier(BUILDING)
    ensures |APPROVING| == 64 && |BUILDING| == 60
  {
  }

  lemma Queues()
    ensures Queueable(Sample(), DEPLOYMENT, GRANTED, BUILD, CALM) == Ok(ORDER)
  {
    hide Name, Filled, Length, Enforced, PolicyDocument, Repeat;
    GrantedShape();
    Balances();
    assert ActiveBuilds(GRANTED) == {};
  }

  lemma Orders(w: World)
    requires Serves(w, GRANTED)
    ensures Serves(Apply(Sample(), w, Serving(true, Request.Building(BUILD), CALM)), ORDERED)
  {
    hide Name, Filled, Length, Queueable, BuildDocument, Repeat, IsIdentifier;
    GrantedShape();
    OrderedLength();
    Identifiers();
    Queues();
  }

  ghost function Labels(n: nat): seq<Label>
    requires n <= 64
  {
    if n == 0 then [Opening(DEPLOYMENT, CALM)]
    else Labels(n - 1) + [Serving(true, Proposal(Drafting(n - 1)), CALM)]
  }

  lemma RunMore(lib: Lib, labels: seq<Label>, l: Label)
    ensures Run(lib, labels + [l]) == Apply(lib, Run(lib, labels), l)
  {
    assert (labels + [l])[..|labels|] == labels;
  }

  lemma {:induction false} Fills(n: nat)
    requires n <= 64
    ensures Serves(Run(Sample(), Labels(n)), Filled(n))
  {
    hide Apply, Run;
    if n == 0 {
      RunMore(Sample(), [], Opening(DEPLOYMENT, CALM));
      assert [] + [Opening(DEPLOYMENT, CALM)] == Labels(0);
      Begins();
      NothingYet();
    } else {
      Fills(n - 1);
      RunMore(Sample(), Labels(n - 1), Serving(true, Proposal(Drafting(n - 1)), CALM));
      Proposes(Run(Sample(), Labels(n - 1)), n - 1);
    }
  }

  lemma NothingYet()
    ensures Run(Sample(), []) == START
  {
  }

  /** Such an image is reached: every publication of this run is synced, the last
      image has a queued build, and no service ever opens it. */
  lemma StrandedHappens() returns (lib: Lib, labels: seq<Label>)
    ensures lib.Valid() && CountsBytes(lib) && Stranded(lib, Run(lib, labels))
    ensures forall more: seq<Label> :: Run(lib, labels + more).engine.None?
  {
    hide Apply, Run, Serves;
    lib := Sample();
    SampleIsValid();
    SampleCounts();
    Fills(64);
    var approved := Labels(64) + [Serving(true, Approving(APPROVE), CALM)];
    RunMore(lib, Labels(64), Serving(true, Approving(APPROVE), CALM));
    Approves(Run(lib, Labels(64)));
    var ordered := approved + [Serving(true, Request.Building(BUILD), CALM)];
    RunMore(lib, approved, Serving(true, Request.Building(BUILD), CALM));
    Orders(Run(lib, approved));
    labels := ordered + [Crashing];
    RunMore(lib, ordered, Crashing);
    Strands(Run(lib, ordered));
    forall more: seq<Label>
      ensures Run(lib, labels + more).engine.None?
    {
      assert (labels + more)[..|labels|] == labels;
      StrandedForever(lib, labels + more, |labels|);
    }
  }

  lemma Strands(w: World)
    requires Serves(w, ORDERED)
    ensures Stranded(Sample(), Apply(Sample(), w, Crashing))
  {
    hide Length, Recovered, Growth, Filled;
    OrderedLength();
    LengthGrows(ORDERED);
  }
}
