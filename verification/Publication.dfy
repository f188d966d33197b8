/** Crash-safe publication in the worker's private directories: write a staging
    file, link it to its final name, unlink the staging name. */
module Publication {
  import opened Wrappers

  /** A file. Content that was never synced is at the mercy of a power loss. */
  datatype Node = Node(content: seq<Byte>, synced: bool)

  /** A directory: what its names refer to, the files, and the earlier listings a
      power loss may still bring back, oldest first. */
  datatype Dir = Dir(names: map<string, nat>, nodes: seq<Node>, journal: seq<map<string, nat>>)

  function Staging(name: string): string {
    "." + name + ".new"
  }

  // The system calls.

  function Sync(d: Dir): Dir {
    d.(journal := [])
  }

  function Relist(d: Dir, names: map<string, nat>): Dir {
    d.(names := names, journal := d.journal + [d.names])
  }

  function Unlink(d: Dir, name: string): Dir {
    Relist(d, d.names - {name})
  }

  function Create(d: Dir, name: string): Dir {
    Relist(d, d.names[name := |d.nodes|]).(nodes := d.nodes + [Node([], false)])
  }

  function Fill(d: Dir, i: nat, node: Node): Dir
    requires i < |d.nodes|
  {
    d.(nodes := d.nodes[i := node])
  }

  function Link(d: Dir, from: string, to: string): Dir
    requires from in d.names
  {
    Relist(d, d.names[to := d.names[from]])
  }

  /** Power loss: the listing of any moment since the last sync, and whatever is
      left of files that were not synced. */
  function LosePower(d: Dir, moment: nat, left: seq<seq<Byte>>): Dir {
    Dir(if moment < |d.journal| then d.journal[moment] else d.names,
        seq(|d.nodes|, i requires 0 <= i < |d.nodes| =>
              if !d.nodes[i].synced && i < |left| && |left[i]| <= |d.nodes[i].content| then Node(left[i], true)
              else d.nodes[i].(synced := true)),
        [])
  }

  // Publication, interrupted after any number of steps.

  /** The first `k` steps after the link was decided. */
  function Linked(d: Dir, name: string, k: nat): Dir
    requires Staging(name) in d.names
  {
    if name in d.names || k == 0 then d
    else
      var d := Link(d, Staging(name), name);
      if k == 1 then d
      else if k == 2 then Sync(d)
      else if k == 3 then Unlink(Sync(d), Staging(name))
      else Sync(Unlink(Sync(d), Staging(name)))
  }

  /** The first `k` steps once no staging name is in the way: create it, write the
      content a byte at a time, sync the file, link. */
  function Staged(d: Dir, name: string, content: seq<Byte>, k: nat): Dir {
    if k == 0 then d
    else
      var i, d := |d.nodes|, Create(d, Staging(name));
      if k <= |content| + 1 then Fill(d, i, Node(content[..k - 1], false))
      else Linked(Fill(d, i, Node(content, true)), name, k - |content| - 2)
  }

  /** The directory after the first `k` steps of writing `content` to `name`. */
  function Written(d: Dir, name: string, content: seq<Byte>, k: nat): Dir {
    if Staging(name) !in d.names then Staged(d, name, content, k)
    else if k == 0 then d
    else if k == 1 then Unlink(d, Staging(name))
    else Staged(Sync(Unlink(d, Staging(name))), name, content, k - 2)
  }

  /** The number of steps that include the link, and all of them. */
  function LinkPoint(d: Dir, name: string, content: seq<Byte>): nat {
    (if Staging(name) in d.names then 2 else 0) + |content| + 3
  }

  function Steps(d: Dir, name: string, content: seq<Byte>): nat {
    LinkPoint(d, name, content) + 3
  }

  // Link counts.

  predicate Related(m: string, n: string) {
    Staging(m) == n || Staging(n) == m
  }

  /** Names of one file are a final name and its staging name. */
  predicate WellLinked(names: map<string, nat>, nodes: nat) {
    && (forall n :: n in names ==> names[n] < nodes)
    && (forall m, n :: m in names && n in names && m != n && names[m] == names[n] ==> Related(m, n))
  }

  predicate Sound(d: Dir) {
    && WellLinked(d.names, |d.nodes|)
    && (forall i :: 0 <= i < |d.journal| ==> WellLinked(d.journal[i], |d.nodes|))
  }

  function Sharing(names: map<string, nat>, node: nat): set<string> {
    set n | n in names && names[n] == node
  }

  datatype ReadError = UnexpectedLink | TooLong

  /** The review reader: a file has one name, or exactly its final and its staging
      name. */
  function ReadAt(d: Dir, name: string, max: nat): Result<Option<seq<Byte>>, ReadError>
    requires Sound(d)
  {
    if name !in d.names then Ok(None)
    else
      var node := d.names[name];
      var links := |Sharing(d.names, node)|;
      if links != 1 && (Staging(name) !in d.names || links != 2 || d.names[Staging(name)] != node) then Err(UnexpectedLink)
      else if |d.nodes[node].content| > max then Err(TooLong)
      else Ok(Some(d.nodes[node].content))
  }

  /** `name` is not a staging name still linked to its final name. */
  predicate IsFinal(names: map<string, nat>, name: string) {
    forall m :: m in names && name in names && names[m] == names[name] ==> Staging(m) != name
  }

  predicate IsStaging(name: string) {
    |name| >= 5 && name[0] == '.' && name[|name| - 4..] == ".new"
  }

  lemma StagingIsStaging(name: string)
    ensures IsStaging(Staging(name)) && Staging(name)[1..|Staging(name)| - 4] == name
  {
  }

  lemma StagingDiffers(name: string)
    ensures |Staging(name)| == |name| + 5 && Staging(name) != name
  {
  }

  lemma StagingInjective(m: string, n: string)
    requires Staging(m) == Staging(n)
    ensures m == n
  {
    assert m == Staging(m)[1..|m| + 1] && n == Staging(n)[1..|n| + 1];
  }

  /** Who shares a file with `name`. */
  lemma SharingIs(names: map<string, nat>, nodes: nat, name: string)
    requires WellLinked(names, nodes) && name in names
    ensures var s := Staging(name); var all := Sharing(names, names[name]);
      IsFinal(names, name) ==> all == if s in names && names[s] == names[name] then {name, s} else {name}
    ensures !IsFinal(names, name) ==> |Sharing(names, names[name])| == 2 && (Staging(name) in names ==> names[Staging(name)] != names[name])
  {
    var s, all := Staging(name), Sharing(names, names[name]);
    forall m | m in all && m != name
      ensures Related(m, name)
    {
    }
    if !IsFinal(names, name) {
      var m :| m in names && names[m] == names[name] && Staging(m) == name;
      StagingDiffers(m);
      StagingDiffers(name);
      StagingDiffers(s);
      forall n | n in all
        ensures n == m || n == name
      {
        if n != name && n != m {
          assert Related(n, name) && Related(n, m);
          if Staging(n) == name {
            StagingInjective(n, m);
          }
        }
      }
      assert s in names && names[s] == names[name] ==> s in all;
      assert all == {m, name};
    }
  }

  /** The reader accepts a name exactly when it is final, whatever was
      interrupted, and then returns the file's content. */
  lemma ReaderAcceptsFinals(d: Dir, name: string, max: nat)
    requires Sound(d)
    ensures ReadAt(d, name, max) == Err(UnexpectedLink) <==> !IsFinal(d.names, name)
    ensures IsFinal(d.names, name) && name in d.names && |d.nodes[d.names[name]].content| <= max
        ==> ReadAt(d, name, max) == Ok(Some(d.nodes[d.names[name]].content))
  {
    if name in d.names {
      SharingIs(d.names, |d.nodes|, name);
      StagingDiffers(name);
      var s := Staging(name);
      assert |{name, s}| == 2 && |{name}| == 1;
    }
  }

  // One publication.

  lemma RelistSound(d: Dir, names: map<string, nat>)
    requires Sound(d) && WellLinked(names, |d.nodes|)
    ensures Sound(Relist(d, names))
  {
  }

  lemma UnlinkSound(d: Dir, name: string)
    requires Sound(d)
    ensures Sound(Unlink(d, name)) && Sound(Sync(Unlink(d, name)))
  {
    RelistSound(d, d.names - {name});
  }

  lemma LinkedSound(d: Dir, name: string, k: nat)
    requires Sound(d) && Staging(name) in d.names
    requires forall n :: n in d.names && d.names[n] == d.names[Staging(name)] ==> n == Staging(name)
    ensures Sound(Linked(d, name, k))
  {
    if name !in d.names && k > 0 {
      RelistSound(d, d.names[name := d.names[Staging(name)]]);
      UnlinkSound(Sync(Link(d, Staging(name), name)), Staging(name));
    }
  }

  lemma CreateSound(d: Dir, name: string)
    requires Sound(d)
    ensures Sound(Create(d, name))
    ensures forall n :: n in Create(d, name).names && Create(d, name).names[n] == |d.nodes| ==> n == name
  {
  }

  lemma StagedSound(d: Dir, name: string, content: seq<Byte>, k: nat)
    requires Sound(d)
    ensures Sound(Staged(d, name, content, k))
  {
    CreateSound(d, Staging(name));
    if k > |content| + 1 {
      LinkedSound(Fill(Create(d, Staging(name)), |d.nodes|, Node(content, true)), name, k - |content| - 2);
    }
  }

  lemma WrittenSound(d: Dir, name: string, content: seq<Byte>, k: nat)
    requires Sound(d)
    ensures Sound(Written(d, name, content, k))
  {
    UnlinkSound(d, Staging(name));
    if Staging(name) !in d.names {
      StagedSound(d, name, content, k);
    } else if k >= 2 {
      StagedSound(Sync(Unlink(d, Staging(name))), name, content, k - 2);
    }
  }

  /** What writing `content` to `name` may do to a listing: every other name
      stays, and `name` appears only with the whole content, synced. */
  predicate Whole(before: map<string, nat>, after: map<string, nat>, nodes: seq<Node>, name: string, content: seq<Byte>) {
    && (forall n :: n in before && n != Staging(name) ==> n in after && after[n] == before[n])
    && (forall n :: n in after ==>
          || n == Staging(name)
          || (n in before && after[n] == before[n])
          || (n == name && after[n] < |nodes| && nodes[after[n]] == Node(content, true)))
  }

  /** The same, of every listing a power loss may bring back. */
  predicate Atomic(d: Dir, d': Dir, name: string, content: seq<Byte>) {
    && d.nodes <= d'.nodes
    && Whole(d.names, d'.names, d'.nodes, name, content)
    && (forall j :: 0 <= j < |d'.journal| ==>
          d'.journal[j] in d.journal || Whole(d.names, d'.journal[j], d'.nodes, name, content))
  }

  lemma RelistAtomic(d: Dir, e: Dir, names: map<string, nat>, name: string, content: seq<Byte>)
    requires Atomic(d, e, name, content) && Whole(d.names, names, e.nodes, name, content)
    ensures Atomic(d, Relist(e, names), name, content) && Atomic(d, Sync(Relist(e, names)), name, content)
  {
  }

  lemma UnlinkAtomic(d: Dir, e: Dir, name: string, content: seq<Byte>)
    requires Atomic(d, e, name, content)
    ensures var e' := Unlink(e, Staging(name)); Atomic(d, e', name, content) && Atomic(d, Sync(e'), name, content)
  {
    assert Whole(d.names, e.names - {Staging(name)}, e.nodes, name, content);
    RelistAtomic(d, e, e.names - {Staging(name)}, name, content);
  }

  lemma CreateAtomic(d: Dir, e: Dir, name: string, content: seq<Byte>, node: Node)
    requires Atomic(d, e, name, content)
    ensures Atomic(d, Fill(Create(e, Staging(name)), |e.nodes|, node), name, content)
  {
    var e' := e.(nodes := e.nodes + [node]);
    assert Atomic(d, e', name, content);
    RelistAtomic(d, e', e.names[Staging(name) := |e.nodes|], name, content);
    assert Fill(Create(e, Staging(name)), |e.nodes|, node) == Relist(e', e.names[Staging(name) := |e.nodes|]);
  }

  lemma LinkedAtomic(d: Dir, e: Dir, name: string, content: seq<Byte>, k: nat)
    requires Atomic(d, e, name, content)
    requires Staging(name) in e.names && e.names[Staging(name)] < |e.nodes| && e.nodes[e.names[Staging(name)]] == Node(content, true)
    ensures Atomic(d, Linked(e, name, k), name, content)
  {
    if name !in e.names && k > 0 {
      StagingDiffers(name);
      RelistAtomic(d, e, e.names[name := e.names[Staging(name)]], name, content);
      UnlinkAtomic(d, Sync(Link(e, Staging(name), name)), name, content);
    }
  }

  lemma StagedAtomic(d: Dir, e: Dir, name: string, content: seq<Byte>, k: nat)
    requires Atomic(d, e, name, content)
    ensures Atomic(d, Staged(e, name, content, k), name, content)
  {
    if 0 < k <= |content| + 1 {
      CreateAtomic(d, e, name, content, Node(content[..k - 1], false));
    } else if k > 0 {
      CreateAtomic(d, e, name, content, Node(content, true));
      LinkedAtomic(d, Fill(Create(e, Staging(name)), |e.nodes|, Node(content, true)), name, content, k - |content| - 2);
    }
  }

  /** Whatever the interruption, the final name is absent or whole, and nothing
      that was published changes; with a power loss too. */
  lemma PublicationIsAtomic(d: Dir, name: string, content: seq<Byte>, k: nat)
    ensures Atomic(d, Written(d, name, content, k), name, content)
  {
    assert Atomic(d, d, name, content);
    UnlinkAtomic(d, d, name, content);
    if Staging(name) !in d.names {
      StagedAtomic(d, d, name, content, k);
    } else if k >= 2 {
      StagedAtomic(d, Sync(Unlink(d, Staging(name))), name, content, k - 2);
    }
  }

  /** A fresh name appears with the link, and after the last step it is all that
      changed, for good. */
  lemma PublicationProgress(d: Dir, name: string, content: seq<Byte>, k: nat)
    requires name !in d.names
    ensures name in Written(d, name, content, k).names <==> k >= LinkPoint(d, name, content)
    ensures k >= Steps(d, name, content) ==>
      var d' := Written(d, name, content, k);
      d'.journal == [] && d'.names == (d.names - {Staging(name)})[name := |d.nodes|] && d'.nodes == d.nodes + [Node(content, true)]
  {
    StagingDiffers(name);
  }
}
