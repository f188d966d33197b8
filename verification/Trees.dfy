/** Retained directory trees and the scan that charges them to a job's budget. */
module Trees {
  import opened Wrappers
  import opened Totals

  datatype Tree =
    | Folder(children: map<string, Tree>)
    | File(size: nat, links: nat)
    | Symlink(size: nat)
    | Special

  datatype Budget = Budget(bytes: nat, entries: nat)

  const MAX_DEPTH := 129

  /** How many entries lie below `t`. */
  ghost function Entries(t: Tree): nat {
    match t
    case Folder(children) => Total(map name | name in children :: 1 + Entries(children[name]))
    case _ => 0
  }

  /** The size of the regular files of `t`. */
  ghost function Bytes(t: Tree): nat {
    match t
    case Folder(children) => Total(map name | name in children :: Bytes(children[name]))
    case File(size, _) => size
    case _ => 0
  }

  /** Only directories of bounded depth, files with one name and, in a snapshot,
      short symbolic links. */
  ghost predicate Allowed(t: Tree, depth: nat, snapshot: bool) {
    match t
    case Folder(children) =>
      depth <= MAX_DEPTH && forall name :: name in children ==> Allowed(children[name], depth + 1, snapshot)
    case File(_, links) => links == 1
    case Symlink(size) => snapshot && size <= 4096
    case Special => false
  }

  ghost predicate Fits(t: Tree, b: Budget, depth: nat, snapshot: bool) {
    Allowed(t, depth, snapshot) && Bytes(t) <= b.bytes && Entries(t) <= b.entries
  }

  ghost function Rest(t: Tree, b: Budget): Budget
    requires Bytes(t) <= b.bytes && Entries(t) <= b.entries
  {
    Budget(b.bytes - Bytes(t), b.entries - Entries(t))
  }

  // The scan.

  ghost function EntriesOf(children: map<string, Tree>): map<string, nat> {
    map name | name in children :: 1 + Entries(children[name])
  }

  ghost function BytesOf(children: map<string, Tree>): map<string, nat> {
    map name | name in children :: Bytes(children[name])
  }

  /** What is left of `b` after the children outside `left`. */
  ghost predicate Charged(children: map<string, Tree>, left: set<string>, budget: Budget, b: Budget) {
    && b.bytes + Total(BytesOf(children) - left) == budget.bytes
    && b.entries + Total(EntriesOf(children) - left) == budget.entries
  }

  lemma ManyChildren(children: map<string, Tree>)
    ensures Entries(Folder(children)) >= |children|
  {
    TotalCounts(EntriesOf(children));
    assert EntriesOf(children).Keys == children.Keys;
    assert |EntriesOf(children).Keys| == |EntriesOf(children)| && |children.Keys| == |children|;
    assert Entries(Folder(children)) == Total(EntriesOf(children));
  }

  /** The next child fits in what is left if the whole directory fits. */
  lemma NextChild(children: map<string, Tree>, left: set<string>, name: string, budget: Budget, b: Budget)
    requires Charged(children, left, budget, b) && name in left && name in children
    ensures var c := children[name];
      && (Bytes(c) > b.bytes ==> Bytes(Folder(children)) > budget.bytes)
      && (1 + Entries(c) > b.entries ==> Entries(Folder(children)) > budget.entries)
      && (Bytes(c) <= b.bytes && 1 + Entries(c) <= b.entries ==>
            Charged(children, left - {name}, budget, Budget(b.bytes - Bytes(c), b.entries - 1 - Entries(c))))
  {
    TotalVisit(BytesOf(children), left, name);
    TotalVisit(EntriesOf(children), left, name);
    assert Entries(Folder(children)) == Total(EntriesOf(children)) && Bytes(Folder(children)) == Total(BytesOf(children));
  }

  lemma AllCharged(children: map<string, Tree>, budget: Budget, b: Budget)
    requires Charged(children, {}, budget, b)
    ensures b.bytes + Bytes(Folder(children)) == budget.bytes && b.entries + Entries(Folder(children)) == budget.entries
  {
    assert BytesOf(children) - {} == BytesOf(children) && EntriesOf(children) - {} == EntriesOf(children);
    assert Entries(Folder(children)) == Total(EntriesOf(children)) && Bytes(Folder(children)) == Total(BytesOf(children));
  }

  lemma NoneCharged(children: map<string, Tree>, budget: Budget)
    ensures Charged(children, children.Keys, budget, budget)
  {
    assert BytesOf(children) - children.Keys == map[] && EntriesOf(children) - children.Keys == map[];
  }

  /** Charge the tree below a directory, in whatever order it lists its entries. */
  method Scan(t: Tree, budget: Budget, depth: nat, snapshot: bool) returns (r: Option<Budget>)
    requires t.Folder?
    ensures r.Some? <==> Fits(t, budget, depth, snapshot)
    ensures r.Some? ==> r.value == Rest(t, budget)
    decreases t, 0
  {
    if depth > MAX_DEPTH {
      return None;
    }
    ManyChildren(t.children);
    if |t.children| > budget.entries {
      return None;
    }
    var left, b := t.children.Keys, budget;
    NoneCharged(t.children, budget);
    while left != {}
      invariant left <= t.children.Keys && Charged(t.children, left, budget, b)
      invariant forall name :: name in t.children && name !in left ==> Allowed(t.children[name], depth + 1, snapshot)
      decreases |left|
    {
      var name :| name in left;
      NextChild(t.children, left, name, budget, b);
      var rest := ScanEntry(t.children[name], b, depth + 1, snapshot);
      if rest.None? {
        return None;
      }
      left, b := left - {name}, rest.value;
    }
    AllCharged(t.children, budget, b);
    return Some(b);
  }

  method ScanEntry(t: Tree, budget: Budget, depth: nat, snapshot: bool) returns (r: Option<Budget>)
    ensures r.Some? <==> Allowed(t, depth, snapshot) && Bytes(t) <= budget.bytes && 1 + Entries(t) <= budget.entries
    ensures r.Some? ==> r.value == Budget(budget.bytes - Bytes(t), budget.entries - 1 - Entries(t))
    decreases t, 1
  {
    if budget.entries == 0 {
      return None;
    }
    var b := budget.(entries := budget.entries - 1);
    match t
    case Folder(_) => r := Scan(t, b, depth, snapshot);
    case File(size, links) => r := if links == 1 && size <= b.bytes then Some(b.(bytes := b.bytes - size)) else None;
    case Symlink(size) => r := if snapshot && size <= 4096 then Some(b) else None;
    case Special => r := None;
  }

  // What the measures mean, without their recursion.

  /** The node that a path of names leads to. */
  ghost function At(t: Tree, path: seq<string>): Option<Tree> {
    if path == [] then Some(t)
    else if t.Folder? && path[0] in t.children then At(t.children[path[0]], path[1..])
    else None
  }

  predicate NodeAllowed(t: Tree, depth: nat, snapshot: bool) {
    && (t.Folder? ==> depth <= 129)
    && (t.File? ==> t.links == 1)
    && (t.Symlink? ==> snapshot && t.size <= 4096)
    && !t.Special?
  }

  ghost predicate AllNodesAllowed(t: Tree, depth: nat, snapshot: bool) {
    forall path :: At(t, path).Some? ==> NodeAllowed(At(t, path).value, depth + |path|, snapshot)
  }

  lemma NodesOfFolder(children: map<string, Tree>, depth: nat, snapshot: bool)
    ensures AllNodesAllowed(Folder(children), depth, snapshot) <==>
      depth <= 129 && forall name :: name in children ==> AllNodesAllowed(children[name], depth + 1, snapshot)
  {
    var t := Folder(children);
    assert At(t, []) == Some(t);
    if AllNodesAllowed(t, depth, snapshot) {
      forall name, path: seq<string> | name in children && At(children[name], path).Some?
        ensures NodeAllowed(At(children[name], path).value, depth + 1 + |path|, snapshot)
      {
        assert ([name] + path)[1..] == path;
        assert At(t, [name] + path) == At(children[name], path);
      }
    }
    if depth <= 129 && forall name :: name in children ==> AllNodesAllowed(children[name], depth + 1, snapshot) {
      forall path: seq<string> | At(t, path).Some?
        ensures NodeAllowed(At(t, path).value, depth + |path|, snapshot)
      {
        if path != [] {
          assert At(t, path) == At(children[path[0]], path[1..]);
        }
      }
    }
  }

  /** A tree is allowed exactly when every node at every path is. */
  lemma {:induction false} AllowedEverywhere(t: Tree, depth: nat, snapshot: bool)
    ensures Allowed(t, depth, snapshot) <==> AllNodesAllowed(t, depth, snapshot)
    decreases t
  {
    if t.Folder? {
      NodesOfFolder(t.children, depth, snapshot);
      hide AllNodesAllowed;
      forall name | name in t.children
        ensures Allowed(t.children[name], depth + 1, snapshot) <==> AllNodesAllowed(t.children[name], depth + 1, snapshot)
      {
        AllowedEverywhere(t.children[name], depth + 1, snapshot);
      }
    } else {
      assert At(t, []) == Some(t);
    }
  }

  lemma FolderTotals(children: map<string, Tree>)
    ensures Entries(Folder(children)) == Total(EntriesOf(children)) && Bytes(Folder(children)) == Total(BytesOf(children))
  {
  }

  /** Each entry of a directory counts once, with what lies below it. */
  lemma EntryAdds(children: map<string, Tree>, name: string, t: Tree)
    requires name !in children
    ensures var grown := Folder(children[name := t]);
      && Entries(grown) == Entries(Folder(children)) + 1 + Entries(t)
      && Bytes(grown) == Bytes(Folder(children)) + Bytes(t)
  {
    hide Entries, Bytes, Total;
    var grown := children[name := t];
    FolderTotals(children);
    FolderTotals(grown);
    assert EntriesOf(grown) == EntriesOf(children)[name := 1 + Entries(t)];
    assert BytesOf(grown) == BytesOf(children)[name := Bytes(t)];
    TotalAdd(EntriesOf(children), name, 1 + Entries(t));
    TotalAdd(BytesOf(children), name, Bytes(t));
  }

  lemma EmptyCountsNothing()
    ensures Entries(Folder(map[])) == 0 && Bytes(Folder(map[])) == 0
    ensures forall size, links :: Bytes(File(size, links)) == size && Entries(File(size, links)) == 0
  {
    assert Entries(Folder(map[])) == Total(EntriesOf(map[])) && Bytes(Folder(map[])) == Total(BytesOf(map[]));
    assert EntriesOf(map[]) == map[] && BytesOf(map[]) == map[];
  }
}
