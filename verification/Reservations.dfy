/** The worker's reservation receipts: empty files published like any other, and
    the recovery that removes what an interruption left beside them. */
module Reservations {
  import opened Wrappers
  import opened Publication

  predicate IsJob(name: string) {
    && 0 < |name| <= 64
    && forall i :: 0 <= i < |name| ==>
         'a' <= name[i] <= 'z' || '0' <= name[i] <= '9' || (i > 0 && (name[i] == '-' || name[i] == '_'))
  }

  /** The job a hidden name is the staging of. */
  function JobOf(name: string): Option<string> {
    if IsStaging(name) && IsJob(name[1..|name| - 4]) then Some(name[1..|name| - 4]) else None
  }

  predicate Hidden(name: string) {
    |name| > 0 && name[0] == '.'
  }

  /** The recovery's test of one hidden name: the staging of a job, empty, and
      linked to its receipt or to nothing. */
  predicate Explained(d: Dir, name: string)
    requires name in d.names && d.names[name] < |d.nodes|
  {
    && JobOf(name).Some? && d.nodes[d.names[name]].content == []
    && var job := JobOf(name).value;
       var links := |Sharing(d.names, d.names[name])|;
       if job in d.names then links == 2 && |Sharing(d.names, d.names[job])| == 2 && d.names[job] == d.names[name]
       else links == 1
  }

  /** An explained name is the staging of a job, its file is empty, and that file
      has no other name than the job's receipt, if there is one. */
  lemma ExplainedIff(d: Dir, name: string)
    requires name in d.names && d.names[name] < |d.nodes|
    ensures Explained(d, name) <==>
      && d.nodes[d.names[name]].content == []
      && exists job :: IsJob(job) && name == "." + job + ".new"
           && Sharing(d.names, d.names[name]) == if job in d.names then {name, job} else {name}
  {
    StagingOf(name);
    var shared := Sharing(d.names, d.names[name]);
    if JobOf(name).Some? {
      var job := JobOf(name).value;
      StagingDiffers(job);
      assert |{name, job}| == 2 && |{name}| == 1;
      if Explained(d, name) {
        if job in d.names {
          SameSize({name, job}, shared);
        } else {
          SameSize({name}, shared);
        }
      }
    }
  }

  lemma SameSize(a: set<string>, b: set<string>)
    requires a <= b && |a| == |b|
    ensures a == b
  {
    assert b == a + (b - a);
  }

  /** The job of a staging name is the only one. */
  lemma StagingOf(name: string)
    ensures JobOf(name).Some? ==> IsJob(JobOf(name).value) && name == "." + JobOf(name).value + ".new"
    ensures forall job :: IsJob(job) && name == "." + job + ".new" ==> JobOf(name) == Some(job)
  {
    if JobOf(name).Some? {
      assert name == name[..1] + name[1..|name| - 4] + name[|name| - 4..];
    }
    forall job | IsJob(job) && name == "." + job + ".new"
      ensures JobOf(name) == Some(job)
    {
      StagingIsStaging(job);
      assert name[1..|name| - 4] == job;
    }
  }

  predicate Recoverable(d: Dir)
    requires Sound(d)
  {
    forall n :: n in d.names && Hidden(n) ==> Explained(d, n)
  }

  function HiddenNames(names: map<string, nat>): set<string> {
    set n | n in names && Hidden(n)
  }

  /** The directory after the recovery accepted it. */
  function Recovered(d: Dir): Dir {
    if HiddenNames(d.names) == {} then d
    else Dir(d.names - HiddenNames(d.names), d.nodes, [])
  }

  /** The recovery interrupted while it unlinks `order`. */
  function Unlinked(d: Dir, order: seq<string>): Dir
    decreases |order|
  {
    if order == [] then d else Unlinked(Unlink(d, order[0]), order[1..])
  }

  // Whole lives.

  datatype Label =
    | Reserving(job: string, steps: nat)
    | Recovering(order: seq<string>, synced: bool)
    | LosingPower(moment: nat, left: seq<seq<Byte>>)

  /** A receipt is written only where there is none, and only hidden names are
      removed. */
  function Apply(d: Dir, l: Label): Dir {
    match l
    case Reserving(job, k) => if IsJob(job) && job !in d.names then Written(d, job, [], k) else d
    case Recovering(order, synced) =>
      if forall i :: 0 <= i < |order| ==> Hidden(order[i]) then
        if synced then Sync(Unlinked(d, order)) else Unlinked(d, order)
      else d
    case LosingPower(moment, left) => LosePower(d, moment, left)
  }

  function Run(labels: seq<Label>): Dir {
    if labels == [] then Dir(map[], [], []) else Apply(Run(labels[..|labels| - 1]), labels[|labels| - 1])
  }

  /** Receipts and their own stagings. */
  predicate Paired(names: map<string, nat>) {
    && (forall n :: n in names ==> IsJob(n) || JobOf(n).Some?)
    && (forall job :: job in names && IsJob(job) && Staging(job) in names ==> names[Staging(job)] == names[job])
  }

  predicate Kept(d: Dir) {
    && Sound(d) && Paired(d.names)
    && (forall i :: 0 <= i < |d.journal| ==> Paired(d.journal[i]))
    && (forall i :: 0 <= i < |d.nodes| ==> d.nodes[i].content == [])
  }

  lemma JobNames(name: string)
    ensures IsJob(name) ==> !Hidden(name) && JobOf(Staging(name)) == Some(name)
    ensures JobOf(name).Some? ==> Hidden(name) && name == Staging(JobOf(name).value)
  {
    StagingIsStaging(name);
    if JobOf(name).Some? {
      assert name == name[..1] + name[1..|name| - 4] + name[|name| - 4..];
    }
  }

  lemma RelistKept(d: Dir, names: map<string, nat>)
    requires Kept(d) && WellLinked(names, |d.nodes|) && Paired(names)
    ensures Kept(Relist(d, names)) && Kept(Sync(Relist(d, names)))
  {
  }

  lemma UnlinkKept(d: Dir, name: string)
    requires Kept(d)
    ensures Kept(Unlink(d, name)) && Kept(Sync(Unlink(d, name)))
  {
    RelistKept(d, d.names - {name});
  }

  lemma {:induction false} UnlinkedKept(d: Dir, order: seq<string>)
    requires Kept(d)
    ensures Kept(Unlinked(d, order))
    decreases |order|
  {
    if order != [] {
      UnlinkKept(d, order[0]);
      UnlinkedKept(Unlink(d, order[0]), order[1..]);
    }
  }

  lemma CreateKept(d: Dir, job: string, synced: bool)
    requires Kept(d) && IsJob(job) && job !in d.names
    ensures Kept(Fill(Create(d, Staging(job)), |d.nodes|, Node([], synced)))
  {
    JobNames(job);
    var e := d.(nodes := d.nodes + [Node([], synced)]);
    var names := d.names[Staging(job) := |d.nodes|];
    forall other | other in names && IsJob(other) && Staging(other) in names
      ensures names[Staging(other)] == names[other]
    {
      JobNames(other);
      if Staging(other) == Staging(job) {
        StagingInjective(other, job);
      }
    }
    RelistKept(e, names);
    assert Fill(Create(d, Staging(job)), |d.nodes|, Node([], synced)) == Relist(e, names);
  }

  lemma LinkedKept(d: Dir, job: string, k: nat)
    requires Kept(d) && IsJob(job) && Staging(job) in d.names && job !in d.names
    requires forall n :: n in d.names && d.names[n] == d.names[Staging(job)] ==> n == Staging(job)
    ensures Kept(Linked(d, job, k))
  {
    JobNames(job);
    if k > 0 {
      var names := d.names[job := d.names[Staging(job)]];
      forall other | other in names && IsJob(other) && Staging(other) in names
        ensures names[Staging(other)] == names[other]
      {
        JobNames(other);
        assert Staging(other) != job;
      }
      RelistKept(d, names);
      UnlinkKept(Sync(Relist(d, names)), Staging(job));
    }
  }

  lemma WrittenKept(d: Dir, job: string, k: nat)
    requires Kept(d) && IsJob(job) && job !in d.names
    ensures Kept(Written(d, job, [], k))
  {
    UnlinkKept(d, Staging(job));
    var e := if Staging(job) in d.names then Sync(Unlink(d, Staging(job))) else d;
    CreateKept(e, job, false);
    CreateKept(e, job, true);
    StagingDiffers(job);
    var f := Fill(Create(e, Staging(job)), |e.nodes|, Node([], true));
    CreateSound(e, Staging(job));
    var k' := if Staging(job) in d.names then k - 2 else k;
    if k' >= 2 {
      LinkedKept(f, job, k' - 2);
    }
  }

  lemma {:induction false} RunKept(labels: seq<Label>)
    ensures Kept(Run(labels))
  {
    if labels != [] {
      var d, l := Run(labels[..|labels| - 1]), labels[|labels| - 1];
      RunKept(labels[..|labels| - 1]);
      match l
      case Reserving(job, k) => if IsJob(job) && job !in d.names { WrittenKept(d, job, k); }
      case Recovering(order, _) => UnlinkedKept(d, order);
      case LosingPower(_, _) =>
    }
  }

  lemma KeptExplained(d: Dir, name: string)
    requires Kept(d) && name in d.names && Hidden(name)
    ensures Explained(d, name)
  {
    JobNames(name);
    var job := JobOf(name).value;
    StagingDiffers(job);
    SharingIs(d.names, |d.nodes|, name);
    if job in d.names {
      SharingIs(d.names, |d.nodes|, job);
      StagingIsStaging(job);
      assert IsFinal(d.names, job) by {
        forall m | m in d.names
          ensures Staging(m) != job
        {
          StagingIsStaging(m);
        }
      }
      assert |{job, name}| == 2;
    } else {
      StagingIsStaging(name);
      assert Staging(name) !in d.names by {
        StagingIsStaging(job);
        if Staging(name) in d.names {
          JobNames(Staging(name));
        }
      }
      assert IsFinal(d.names, name) by {
        forall m | m in d.names && d.names[m] == d.names[name]
          ensures Staging(m) != name
        {
          if Staging(m) == name {
            StagingInjective(m, job);
          }
        }
      }
    }
  }

  /** Recovery accepts whatever interrupted reservations, interrupted recoveries
      and power losses leave. */
  lemma RecoveryAccepts(labels: seq<Label>)
    ensures Sound(Run(labels)) && Recoverable(Run(labels))
  {
    RunKept(labels);
    forall n | n in Run(labels).names && Hidden(n)
      ensures Explained(Run(labels), n)
    {
      KeptExplained(Run(labels), n);
    }
  }

  /** It keeps a receipt exactly when the interrupted write had linked it. */
  lemma ReceiptKeptIffLinked(labels: seq<Label>, job: string, k: nat)
    requires IsJob(job) && job !in Run(labels).names
    ensures var d := Run(labels); var r := Recovered(Run(labels + [Reserving(job, k)]));
      && (job in r.names <==> k >= LinkPoint(d, job, []))
      && r.names.Keys == (set n | n in d.names && !Hidden(n)) + (if job in r.names then {job} else {})
      && forall n :: n in d.names && !Hidden(n) ==> r.names[n] == d.names[n]
  {
    var d := Run(labels);
    assert (labels + [Reserving(job, k)])[..|labels|] == labels;
    JobNames(job);
    PublicationIsAtomic(d, job, [], k);
    PublicationProgress(d, job, [], k);
  }

  /** With a power loss right after the interruption, whatever it brings back:
      once the directory was synced after the link, recovery keeps the receipt, and
      a receipt it keeps had been linked, unless an earlier listing that is not
      synced away held one of that name. */
  lemma ReceiptKeptAcrossPowerLoss(labels: seq<Label>, job: string, k: nat, moment: nat, left: seq<seq<Byte>>)
    requires IsJob(job) && job !in Run(labels).names
    ensures var d := Run(labels); var r := Recovered(Run(labels + [Reserving(job, k), LosingPower(moment, left)]));
      && (k > LinkPoint(d, job, []) ==> job in r.names)
      && (job in r.names ==> k >= LinkPoint(d, job, []) || exists i :: 0 <= i < |d.journal| && job in d.journal[i])
  {
    var d := Run(labels);
    var more := labels + [Reserving(job, k), LosingPower(moment, left)];
    assert more[..|labels| + 1] == labels + [Reserving(job, k)] && (labels + [Reserving(job, k)])[..|labels|] == labels;
    JobNames(job);
    ListingsOf(d, job, k);
  }

  /** Which of the listings a power loss may bring back hold the name. */
  lemma ListingsOf(d: Dir, job: string, k: nat)
    requires IsJob(job) && job !in d.names
    ensures var e := Written(d, job, [], k);
      && (k > LinkPoint(d, job, []) ==> job in e.names && forall i :: 0 <= i < |e.journal| ==> job in e.journal[i])
      && (k < LinkPoint(d, job, []) ==>
            && job !in e.names
            && forall i :: 0 <= i < |e.journal| && job in e.journal[i] ==> exists j :: 0 <= j < |d.journal| && d.journal[j] == e.journal[i])
  {
    JobNames(job);
    StagingDiffers(job);
  }
}
