/** The host's review of worker jobs: decisions published beside a wakeup marker,
    and the drain that consumes it. Both hold the queue lock, so each runs alone;
    either may be interrupted anywhere. */
module Review {
  import opened Wrappers

  datatype Decision = Approve | Deny

  datatype Receipt = Receipt(digest: string, decision: Decision)

  const MAX_DECISIONS := 4096

  /** The marker and the recorded decisions, as processes see them and as a power
      loss would leave them. */
  datatype Files = Files(marker: bool, durableMarker: bool, decisions: map<string, Receipt>, durable: map<string, Receipt>)

  /** What a decision finds in the queue, and how its two publications end. */
  datatype Env = Env(
    request: Option<Request>,
    running: bool,
    terminal: bool,
    approved: bool,
    markerFate: Fate,
    decisionFate: Fate)

  datatype Request = Request(digest: string, needsApproval: bool)

  datatype Answer = Recorded(receipt: Receipt) | Conflict | NotFound | Invalid | Limit | Uncertain

  /** Publish the marker, or sync the one that is there. */
  function Marked(f: Files, fate: Fate): Files {
    if f.marker then (if fate == Synced then f.(durableMarker := true) else f)
    else
      match fate
      case Kept => f
      case Unsynced => f.(marker := true)
      case Synced => f.(marker := true, durableMarker := true)
  }

  function Recording(f: Files, job: string, r: Receipt, fate: Fate): Files {
    match fate
    case Kept => f
    case Unsynced => f.(decisions := f.decisions[job := r])
    case Synced => f.(decisions := f.decisions[job := r], durable := f.durable[job := r])
  }

  /** What refuses a new decision before anything is written. */
  function Refusal(f: Files, job: string, r: Receipt, env: Env): Option<Answer> {
    if env.request.Some? && env.request.value.digest != r.digest then Some(Conflict)
    else if job in f.decisions then Some(if f.decisions[job] == r then Recorded(r) else Conflict)
    else if env.request.None? then Some(NotFound)
    else if env.running || env.terminal || env.approved then Some(Conflict)
    else if r.decision == Approve && !env.request.value.needsApproval then Some(Invalid)
    else if |f.decisions| >= MAX_DECISIONS then Some(Limit)
    else None
  }

  /** Decide: the marker first, then the decision. */
  function Decide(f: Files, job: string, r: Receipt, env: Env): (Files, Answer) {
    if Refusal(f, job, r, env).Some? then (f, Refusal(f, job, r, env).value)
    else if env.markerFate != Synced then (Marked(f, env.markerFate), Uncertain)
    else
      (Recording(Marked(f, Synced), job, r, env.decisionFate), if env.decisionFate == Synced then Recorded(r) else Uncertain)
  }

  /** Drain entry: consume the marker, then process everything recorded. */
  function Consume(f: Files, fate: Fate): Files {
    if !f.marker || fate == Kept then f
    else if fate == Unsynced then f.(marker := false)
    else f.(marker := false, durableMarker := false)
  }

  /** A decision is newly recorded exactly when it names the waiting request's own
      digest, the job is neither running, finished nor approved already, an
      approval is needed where one is given, there is room, and the marker was
      synced before; the caller is told so exactly when the decision is synced, too. */
  lemma DecisionRecordedIff(f: Files, job: string, r: Receipt, env: Env)
    requires job !in f.decisions
    ensures var (f', a) := Decide(f, job, r, env);
      var due :=
        && env.request.Some? && env.request.value.digest == r.digest && !env.running && !env.terminal && !env.approved
        && (r.decision == Approve ==> env.request.value.needsApproval) && |f.decisions| < MAX_DECISIONS;
      && (job in f'.decisions <==> due && env.markerFate == Synced && env.decisionFate != Kept)
      && (job in f'.decisions ==>
            f'.decisions == f.decisions[job := r] && f'.marker && f'.durableMarker
            && f'.durable == if env.decisionFate == Synced then f.durable[job := r] else f.durable)
      && (a.Recorded? <==> due && env.markerFate == Synced && env.decisionFate == Synced) && (a.Recorded? ==> a.receipt == r)
      && (a == Uncertain <==> due && !a.Recorded?)
      && (!due ==> f' == f)
  {
  }

  /** Why a decision is refused, and what a repeated one is told. */
  lemma RefusalsAreExact(f: Files, job: string, r: Receipt, env: Env)
    ensures var (f', a) := Decide(f, job, r, env);
      && (job in f.decisions ==>
            && f' == f
            && a == if (env.request.Some? ==> env.request.value.digest == r.digest) && f.decisions[job] == r then Recorded(r) else Conflict)
      && (job !in f.decisions ==>
            && (a == NotFound <==> env.request.None?)
            && (a == Conflict <==> env.request.Some? && (env.request.value.digest != r.digest || env.running || env.terminal || env.approved)))
  {
  }

  /** A drain that gets past the marker has removed it for good; a decision after it
      puts a new one. Decisions stay. */
  lemma DrainConsumes(f: Files, fate: Fate)
    ensures Consume(f, fate).decisions == f.decisions && Consume(f, fate).durable == f.durable
    ensures f.marker && fate == Synced ==> !Consume(f, fate).marker && !Consume(f, fate).durableMarker
    ensures f.marker && fate == Unsynced ==> !Consume(f, fate).marker && Consume(f, fate).durableMarker == f.durableMarker
    ensures !f.marker || fate == Kept ==> Consume(f, fate) == f
  {
  }

  // Runs.

  /** A reply that told a caller its decision is recorded, and whether a power loss
      could still undo it. */
  datatype Reply = Reply(job: string, receipt: Receipt, durable: bool)

  /** `seen` are the recorded decisions that a drain has started after; `passed`
      those after which one got past the marker, on to process the queue. A drain
      whose removal of the marker was not synced stops there, and only the service
      manager's restart of the failed unit follows it. */
  datatype World = World(files: Files, seen: set<string>, passed: set<string>, replies: seq<Reply>)

  datatype Label =
    | Deciding(job: string, receipt: Receipt, env: Env)
    | Draining(fate: Fate)
    | Flushing
    | LosingPower

  const START: World := World(Files(false, false, map[], map[]), {}, {}, [])

  function Apply(w: World, l: Label): World {
    match l
    case Deciding(job, r, env) =>
      var (f, a) := Decide(w.files, job, r, env);
      World(f,
            if f.decisions == w.files.decisions then w.seen else w.seen - {job},
            if f.decisions == w.files.decisions then w.passed else w.passed - {job},
            if a.Recorded? then w.replies + [Reply(job, a.receipt, job in f.durable)] else w.replies)
    case Draining(fate) =>
      var f := Consume(w.files, fate);
      if w.files.marker && fate == Kept then w.(files := f)
      else if w.files.marker && fate == Unsynced then w.(files := f, seen := w.seen + f.decisions.Keys)
      else w.(files := f, seen := w.seen + f.decisions.Keys, passed := w.passed + f.decisions.Keys)
    case Flushing => w.(files := w.files.(durableMarker := w.files.marker, durable := w.files.decisions))
    case LosingPower => w.(files := w.files.(marker := w.files.durableMarker, decisions := w.files.durable))
  }

  function Run(labels: seq<Label>): World {
    if labels == [] then START else Apply(Run(labels[..|labels| - 1]), labels[|labels| - 1])
  }

  // No decision without a wakeup.

  predicate Extends(m: map<string, Receipt>, m': map<string, Receipt>) {
    forall job :: job in m ==> job in m' && m'[job] == m[job]
  }

  predicate Awake(w: World) {
    && Extends(w.files.durable, w.files.decisions)
    && (forall job :: job in w.files.decisions ==> w.files.marker || job in w.seen)
    && (forall job :: job in w.files.durable ==> w.files.durableMarker || job in w.seen)
  }

  lemma StepAwake(w: World, l: Label)
    requires Awake(w)
    ensures Awake(Apply(w, l))
  {
  }

  /** However decisions, drains and power losses interleave, a recorded decision
      has its marker still in place or a drain that started after it. */
  lemma {:induction false} NoLostWakeup(labels: seq<Label>)
    ensures var w := Run(labels);
      && Awake(w)
      && forall job :: job in w.files.decisions ==> w.files.marker || job in w.seen
  {
    if labels != [] {
      NoLostWakeup(labels[..|labels| - 1]);
      StepAwake(Run(labels[..|labels| - 1]), labels[|labels| - 1]);
    }
  }

  predicate Served(w: World) {
    && Extends(w.files.durable, w.files.decisions)
    && (forall job :: job in w.files.decisions ==> w.files.marker || job in w.passed)
    && (forall job :: job in w.files.durable ==> w.files.durableMarker || job in w.passed)
  }

  lemma StepServed(w: World, l: Label)
    requires Served(w) && !(l == Draining(Unsynced) && w.files.marker)
    ensures Served(Apply(w, l))
  {
  }

  /** Step `k` is a drain that removed the marker and then stopped. */
  ghost predicate Stumbles(labels: seq<Label>, k: nat)
    requires k < |labels|
  {
    labels[k] == Draining(Unsynced) && Run(labels[..k]).files.marker
  }

  /** If no drain stops between removing the marker and syncing that, a recorded
      decision has its marker in place or a drain that got past it since. */
  lemma {:induction false} NoUnservedWakeup(labels: seq<Label>)
    requires forall k :: 0 <= k < |labels| ==> !Stumbles(labels, k)
    ensures Served(Run(labels))
  {
    if labels != [] {
      var before := labels[..|labels| - 1];
      forall k | 0 <= k < |before|
        ensures !Stumbles(before, k)
      {
        assert before[..k] == labels[..k] && !Stumbles(labels, k);
      }
      NoUnservedWakeup(before);
      assert !Stumbles(labels, |before|);
      StepServed(Run(before), labels[|before|]);
    }
  }

  /** And a drain that does leaves every decision it did not see before without
      marker and unserved. */
  lemma StumbleLeavesUnserved(labels: seq<Label>, job: string)
    requires Run(labels).files.marker && job in Run(labels).files.decisions && job !in Run(labels).passed
    ensures var w := Run(labels + [Draining(Unsynced)]);
      job in w.files.decisions && !w.files.marker && job !in w.passed && job in w.seen
  {
    assert (labels + [Draining(Unsynced)])[..|labels|] == labels;
  }

  /** Such a state is reached: one decision accepted and synced. */
  lemma StumbleHappens(job: string, r: Receipt) returns (labels: seq<Label>)
    ensures var w := Run(labels);
      w.files.marker && job in w.files.decisions && job !in w.passed
  {
    labels := [Deciding(job, r, Env(Some(Request(r.digest, true)), false, false, false, Synced, Synced))];
    assert labels[..0] == [];
  }

  // Decisions are final.

  lemma StepGrows(w: World, l: Label)
    requires Awake(w)
    ensures Extends(w.files.durable, Apply(w, l).files.durable)
    ensures !l.LosingPower? ==> Extends(w.files.decisions, Apply(w, l).files.decisions)
  {
  }

  /** What a power loss cannot undo is never replaced; without power loss, nothing
      recorded is. */
  lemma {:induction false} DecisionsAreFinal(labels: seq<Label>, k: nat)
    requires k <= |labels|
    ensures Extends(Run(labels[..k]).files.durable, Run(labels).files.durable)
    ensures (forall i :: k <= i < |labels| ==> !labels[i].LosingPower?) ==>
      Extends(Run(labels[..k]).files.decisions, Run(labels).files.decisions)
    decreases |labels|
  {
    if k == |labels| {
      assert labels[..k] == labels;
    } else {
      var before := labels[..|labels| - 1];
      assert before[..k] == labels[..k];
      DecisionsAreFinal(before, k);
      NoLostWakeup(before);
      StepGrows(Run(before), labels[|labels| - 1]);
    }
  }

  /** A reply agrees with what is recorded, as long as nothing undid it. */
  predicate Stands(f: Files, r: Reply, lost: bool) {
    && (r.durable ==> r.job in f.durable && f.durable[r.job] == r.receipt)
    && (!lost ==> r.job in f.decisions && f.decisions[r.job] == r.receipt)
  }

  predicate Agree(replies: seq<Reply>, lost: bool) {
    forall i, j :: 0 <= i <= j < |replies| && replies[i].job == replies[j].job && (replies[i].durable || !lost) ==>
      replies[i].receipt == replies[j].receipt
  }

  predicate Honoured(w: World, lost: bool) {
    Agree(w.replies, lost) && forall i :: 0 <= i < |w.replies| ==> Stands(w.files, w.replies[i], lost)
  }

  predicate Lost(labels: seq<Label>) {
    labels != [] && (Lost(labels[..|labels| - 1]) || labels[|labels| - 1].LosingPower?)
  }

  lemma StepStands(w: World, l: Label, lost: bool, i: nat)
    requires Awake(w) && i < |Apply(w, l).replies| && (i < |w.replies| ==> Stands(w.files, w.replies[i], lost))
    ensures Stands(Apply(w, l).files, Apply(w, l).replies[i], lost || l.LosingPower?)
  {
    StepGrows(w, l);
    StepAwake(w, l);
  }

  lemma StepHonoured(w: World, l: Label, lost: bool)
    requires Awake(w) && Honoured(w, lost)
    ensures Honoured(Apply(w, l), lost || l.LosingPower?)
  {
    var w' := Apply(w, l);
    StepAwake(w, l);
    forall i | 0 <= i < |w'.replies|
      ensures Stands(w'.files, w'.replies[i], lost || l.LosingPower?)
    {
      StepStands(w, l, lost, i);
    }
    assert w.replies <= w'.replies;
    forall i, j | 0 <= i <= j < |w'.replies| && w'.replies[i].job == w'.replies[j].job && (w'.replies[i].durable || !(lost || l.LosingPower?))
      ensures w'.replies[i].receipt == w'.replies[j].receipt
    {
      assert Stands(w'.files, w'.replies[i], lost || l.LosingPower?);
    }
  }

  lemma {:induction false} RunHonoured(labels: seq<Label>)
    ensures Honoured(Run(labels), Lost(labels))
  {
    if labels != [] {
      var before, l := labels[..|labels| - 1], labels[|labels| - 1];
      RunHonoured(before);
      NoLostWakeup(before);
      StepHonoured(Run(before), l, Lost(before));
    }
  }

  /** A reply is repeated by every later one about the job, if it was about a
      decision on stable storage or no power is lost. */
  lemma RetriesAgree(labels: seq<Label>, i: nat, j: nat)
    requires i <= j < |Run(labels).replies| && Run(labels).replies[i].job == Run(labels).replies[j].job
    requires Run(labels).replies[i].durable || !Lost(labels)
    ensures Run(labels).replies[i].receipt == Run(labels).replies[j].receipt
  {
    RunHonoured(labels);
  }

  function Other(r: Receipt): Receipt {
    r.(decision := if r.decision == Approve then Deny else Approve)
  }

  /** The condition is exact: a retry that answered from a decision whose
      publication was never synced can be contradicted after a power loss, the job
      still waiting because no drain has seen the decision. */
  lemma UnsyncedReplyCanBeContradicted(labels: seq<Label>) returns (more: seq<Label>)
    requires Run(labels).replies != [] && |Run(labels).files.durable| < MAX_DECISIONS
    requires var r := Run(labels).replies[|Run(labels).replies| - 1];
      r.job !in Run(labels).files.durable && r.job !in Run(labels).seen
    ensures labels <= more && |Run(more).replies| == |Run(labels).replies| + 1
    ensures var last := |Run(labels).replies|;
      && Run(more).replies[..last] == Run(labels).replies
      && Run(more).replies[last].job == Run(labels).replies[last - 1].job
      && Run(more).replies[last].receipt == Other(Run(labels).replies[last - 1].receipt)
  {
    var w := Run(labels);
    var r := w.replies[|w.replies| - 1];
    var env := Env(Some(Request(r.receipt.digest, true)), false, false, false, Synced, Synced);
    var l := Deciding(r.job, Other(r.receipt), env);
    var off := labels + [LosingPower];
    more := off + [l];
    assert off[..|off| - 1] == labels && more[..|more| - 1] == off;
    assert Run(off) == Apply(w, LosingPower);
    assert Run(more) == Apply(Run(off), l);
  }

  /** And such a reply is reached: the sync after the link fails, and the caller
      asks again. */
  lemma UnsyncedReplyHappens(job: string, r: Receipt) returns (labels: seq<Label>)
    ensures Run(labels).replies == [Reply(job, r, false)] && job !in Run(labels).files.durable && job !in Run(labels).seen
  {
    var request := Some(Request(r.digest, true));
    var first := Deciding(job, r, Env(request, false, false, false, Synced, Unsynced));
    var again := Deciding(job, r, Env(request, false, false, false, Synced, Synced));
    labels := [first, again];
    assert labels[..1] == [first] && [first][..0] == [];
    assert Run([first]) == Apply(START, first);
    assert Run(labels) == Apply(Run([first]), again);
  }

  // The files, changed in place.

  class ReviewQueue {
    var marker: bool
    var durableMarker: bool
    var decisions: map<string, Receipt>
    var durable: map<string, Receipt>

    ghost function View(): Files
      reads this
    {
      Files(marker, durableMarker, decisions, durable)
    }

    method WriteMarker(fate: Fate) returns (ok: bool)
      modifies this
      ensures View() == Marked(old(View()), fate) && (ok <==> fate == Synced)
    {
      if !marker && fate != Kept {
        marker := true;
      }
      if fate == Synced {
        durableMarker := marker;
      }
      return fate == Synced;
    }

    method WriteDecision(job: string, r: Receipt, fate: Fate) returns (ok: bool)
      modifies this
      ensures View() == Recording(old(View()), job, r, fate) && (ok <==> fate == Synced)
    {
      if fate != Kept {
        decisions := decisions[job := r];
      }
      if fate == Synced {
        durable := durable[job := r];
      }
      return fate == Synced;
    }

    method DecideCommand(job: string, decision: Decision, expected: string, env: Env) returns (a: Answer)
      modifies this
      ensures (View(), a) == Decide(old(View()), job, Receipt(expected, decision), env)
    {
      if env.request.Some? && env.request.value.digest != expected {
        return Conflict;
      }
      var receipt := Receipt(expected, decision);
      if job in decisions {
        return if decisions[job] == receipt then Recorded(receipt) else Conflict;
      }
      if env.request.None? {
        return NotFound;
      }
      if env.running || env.terminal || env.approved {
        return Conflict;
      }
      if decision == Approve && !env.request.value.needsApproval {
        return Invalid;
      }
      if |decisions| >= MAX_DECISIONS {
        return Limit;
      }
      var ok := WriteMarker(env.markerFate);
      if !ok {
        return Uncertain;
      }
      ok := WriteDecision(job, receipt, env.decisionFate);
      return if ok then Recorded(receipt) else Uncertain;
    }

    method ConsumeDrainRequest(fate: Fate) returns (ok: bool)
      modifies this
      ensures View() == Consume(old(View()), fate) && (ok <==> !old(marker) || fate == Synced)
    {
      if !marker {
        return true;
      }
      if fate == Kept {
        return false;
      }
      marker := false;
      if fate == Unsynced {
        return false;
      }
      durableMarker := false;
      return true;
    }
  }
}
