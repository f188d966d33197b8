/** Directories over their whole lives: any number of interrupted publications,
    removals and power losses. */
module PublicationRuns {
  import opened Wrappers
  import opened Publication

  datatype Label =
    | Writing(name: string, content: seq<Byte>, steps: nat)
    | Removing(name: string, synced: bool)
    | LosingPower(moment: nat, left: seq<seq<Byte>>)

  const EMPTY: Dir := Dir(map[], [], [])

  function Apply(finals: set<string>, d: Dir, l: Label): Dir {
    match l
    case Writing(name, content, k) => if name in finals then Written(d, name, content, k) else d
    case Removing(name, synced) => if synced then Sync(Unlink(d, name)) else Unlink(d, name)
    case LosingPower(moment, left) => LosePower(d, moment, left)
  }

  function Run(finals: set<string>, labels: seq<Label>): Dir {
    if labels == [] then EMPTY else Apply(finals, Run(finals, labels[..|labels| - 1]), labels[|labels| - 1])
  }

  /** No published name looks like a staging name. */
  predicate Separate(finals: set<string>) {
    forall n :: n in finals ==> !IsStaging(n)
  }

  ghost predicate Given(labels: seq<Label>, name: string, content: seq<Byte>) {
    exists i :: 0 <= i < |labels| && labels[i].Writing? && labels[i].name == name && labels[i].content == content
  }

  /** Every published name holds one whole content that was given to it. */
  ghost predicate Genuine(finals: set<string>, labels: seq<Label>, names: map<string, nat>, nodes: seq<Node>) {
    && (forall n :: n in names && n !in finals ==> exists m :: m in finals && n == Staging(m))
    && (forall n :: n in names && n in finals ==>
          names[n] < |nodes| && nodes[names[n]].synced && Given(labels, n, nodes[names[n]].content))
  }

  ghost predicate Kept(finals: set<string>, labels: seq<Label>, d: Dir) {
    && Sound(d) && Genuine(finals, labels, d.names, d.nodes)
    && (forall i :: 0 <= i < |d.journal| ==> Genuine(finals, labels, d.journal[i], d.nodes))
  }

  lemma StillGenuine(finals: set<string>, labels: seq<Label>, l: Label, names: map<string, nat>, nodes: seq<Node>, nodes': seq<Node>)
    requires Genuine(finals, labels, names, nodes)
    requires |nodes| <= |nodes'| && forall i :: 0 <= i < |nodes| && nodes[i].synced ==> nodes'[i] == nodes[i]
    ensures Genuine(finals, labels + [l], names, nodes')
  {
    forall n | n in names && n in finals
      ensures Given(labels + [l], n, nodes[names[n]].content)
    {
      var i :| 0 <= i < |labels| && labels[i].Writing? && labels[i].name == n && labels[i].content == nodes[names[n]].content;
      assert (labels + [l])[i] == labels[i];
    }
  }

  lemma WholeIsGenuine(finals: set<string>, labels: seq<Label>, l: Label, before: map<string, nat>, after: map<string, nat>, nodes: seq<Node>)
    requires l.Writing? && l.name in finals && Genuine(finals, labels + [l], before, nodes)
    requires Whole(before, after, nodes, l.name, l.content)
    ensures Separate(finals) ==> Genuine(finals, labels + [l], after, nodes)
  {
    assert (labels + [l])[|labels|] == l;
    assert Given(labels + [l], l.name, l.content);
  }

  lemma WritingKept(finals: set<string>, labels: seq<Label>, l: Label, d: Dir)
    requires Separate(finals) && Kept(finals, labels, d) && l.Writing? && l.name in finals
    ensures Kept(finals, labels + [l], Written(d, l.name, l.content, l.steps))
  {
    var d' := Written(d, l.name, l.content, l.steps);
    WrittenSound(d, l.name, l.content, l.steps);
    PublicationIsAtomic(d, l.name, l.content, l.steps);
    StillGenuine(finals, labels, l, d.names, d.nodes, d'.nodes);
    WholeIsGenuine(finals, labels, l, d.names, d'.names, d'.nodes);
    forall j | 0 <= j < |d'.journal|
      ensures Genuine(finals, labels + [l], d'.journal[j], d'.nodes)
    {
      if d'.journal[j] in d.journal {
        var i :| 0 <= i < |d.journal| && d.journal[i] == d'.journal[j];
        StillGenuine(finals, labels, l, d.journal[i], d.nodes, d'.nodes);
      } else {
        WholeIsGenuine(finals, labels, l, d.names, d'.journal[j], d'.nodes);
      }
    }
  }

  lemma AllGenuine(finals: set<string>, labels: seq<Label>, l: Label, d: Dir)
    requires Kept(finals, labels, d)
    ensures Kept(finals, labels + [l], d)
  {
    StillGenuine(finals, labels, l, d.names, d.nodes, d.nodes);
    forall i | 0 <= i < |d.journal|
      ensures Genuine(finals, labels + [l], d.journal[i], d.nodes)
    {
      StillGenuine(finals, labels, l, d.journal[i], d.nodes, d.nodes);
    }
  }

  lemma LosingPowerKept(finals: set<string>, labels: seq<Label>, l: Label, d: Dir)
    requires Kept(finals, labels, d) && l.LosingPower?
    ensures Kept(finals, labels + [l], LosePower(d, l.moment, l.left))
  {
    var d' := LosePower(d, l.moment, l.left);
    if l.moment < |d.journal| {
      StillGenuine(finals, labels, l, d.journal[l.moment], d.nodes, d'.nodes);
    } else {
      StillGenuine(finals, labels, l, d.names, d.nodes, d'.nodes);
    }
  }

  lemma {:induction false} RunKept(finals: set<string>, labels: seq<Label>)
    requires Separate(finals)
    ensures Kept(finals, labels, Run(finals, labels))
  {
    if labels != [] {
      var before, l := labels[..|labels| - 1], labels[|labels| - 1];
      var d := Run(finals, before);
      RunKept(finals, before);
      AllGenuine(finals, before, l, d);
      match l {
        case Writing(name, _, _) => if name in finals { WritingKept(finals, before, l, d); }
        case Removing(name, _) => UnlinkSound(d, name);
        case LosingPower(_, _) => LosingPowerKept(finals, before, l, d);
      }
      assert before + [l] == labels;
    }
  }

  /** Whatever happened to a directory, its reader never meets a link it does not
      expect, and returns only whole contents that were given to that name. */
  lemma ReadsAreWhole(finals: set<string>, labels: seq<Label>, name: string, max: nat)
    requires Separate(finals) && name in finals
    ensures Sound(Run(finals, labels))
    ensures match ReadAt(Run(finals, labels), name, max)
      case Ok(None) => name !in Run(finals, labels).names
      case Ok(Some(content)) => Given(labels, name, content)
      case Err(UnexpectedLink) => false
      case Err(TooLong) => exists content :: |content| > max && Given(labels, name, content)
  {
    RunKept(finals, labels);
    var d := Run(finals, labels);
    ReaderAcceptsFinals(d, name, max);
    forall m | m in d.names
      ensures Staging(m) != name
    {
      StagingIsStaging(m);
    }
  }

  predicate Disturbs(l: Label, name: string) {
    (l.Removing? && l.name == name) || l.LosingPower?
  }

  /** A published name keeps its file, content included, until it is removed or
      power is lost. */
  lemma {:induction false} NeverReplaced(finals: set<string>, labels: seq<Label>, k: nat, name: string)
    requires Separate(finals) && name in finals && k <= |labels| && name in Run(finals, labels[..k]).names
    requires forall i :: k <= i < |labels| ==> !Disturbs(labels[i], name)
    ensures var d, d' := Run(finals, labels[..k]), Run(finals, labels);
      && name in d'.names && d'.names[name] == d.names[name] && d.names[name] < |d.nodes| && d.names[name] < |d'.nodes|
      && d'.nodes[d.names[name]] == d.nodes[d.names[name]]
    decreases |labels|
  {
    if k == |labels| {
      assert labels[..k] == labels;
      RunKept(finals, labels);
    } else {
      var before, l := labels[..|labels| - 1], labels[|labels| - 1];
      assert before[..k] == labels[..k];
      NeverReplaced(finals, before, k, name);
      var d := Run(finals, before);
      if l.Writing? && l.name in finals {
        StagingIsStaging(l.name);
        PublicationIsAtomic(d, l.name, l.content, l.steps);
      }
    }
  }
}
