/** The structural difference between two configurations that a proposal carries,
    reported as JSON Pointers. */
module Diff {
  import opened Wrappers
  import opened Json
  import opened Pointer
  import opened Order

  datatype Kind = Added | Removed | Changed

  /** A reported change: the decoded location, and how it changed. */
  datatype Change = Change(at: seq<string>, kind: Kind)

  // The specification: differences at decoded locations.

  predicate SameContainer(before: Json, after: Json) {
    (before.Obj? && after.Obj?) || (before.Arr? && after.Arr?)
  }

  function Max(a: nat, b: nat): nat {
    if a > b then a else b
  }

  /** The members to compare, in the order they are visited. */
  ghost function Members(before: Json, after: Json): seq<string>
    requires SameContainer(before, after)
  {
    if before.Obj? then Sorted(before.fields.Keys + after.fields.Keys)
    else seq(Max(|before.items|, |after.items|), i requires 0 <= i => Decimal(i))
  }

  function Under(token: string, changes: seq<Change>): seq<Change> {
    seq(|changes|, i requires 0 <= i < |changes| => Change([token] + changes[i].at, changes[i].kind))
  }

  ghost function Difference(before: Json, after: Json): seq<Change>
    decreases before, 2, 0
  {
    if before == after then []
    else if SameContainer(before, after) then DifferenceIn(before, after, Members(before, after))
    else [Change([], Changed)]
  }

  ghost function DifferenceIn(before: Json, after: Json, members: seq<string>): seq<Change>
    decreases before, 1, |members|
  {
    if members == [] then []
    else Under(members[0], DifferenceAt(before, after, members[0])) + DifferenceIn(before, after, members[1..])
  }

  ghost function DifferenceAt(before: Json, after: Json, token: string): seq<Change>
    decreases before, 0, 0
  {
    match (Child(before, token), Child(after, token))
    case (Some(a), Some(b)) => Difference(a, b)
    case (None, Some(_)) => [Change([], Added)]
    case (Some(_), None) => [Change([], Removed)]
    case (None, None) => []
  }

  // The recursion the service runs, on path strings.

  datatype Report = Report(path: string, kind: Kind)

  function Reports(path: string, changes: seq<Change>): seq<Report> {
    seq(|changes|, i requires 0 <= i < |changes| => Report(Render(path, changes[i].at), changes[i].kind))
  }

  lemma ReportsAppend(path: string, a: seq<Change>, b: seq<Change>)
    ensures Reports(path, a + b) == Reports(path, a) + Reports(path, b)
  {
  }

  lemma ReportsUnder(path: string, token: string, changes: seq<Change>)
    ensures Reports(path, Under(token, changes)) == Reports(path + "/" + Escape(token), changes)
  {
    forall i | 0 <= i < |changes|
      ensures Render(path, [token] + changes[i].at) == Render(path + "/" + Escape(token), changes[i].at)
    {
      assert ([token] + changes[i].at)[1..] == changes[i].at;
    }
  }

  lemma {:induction false} DifferenceInSplit(before: Json, after: Json, front: seq<string>, back: seq<string>)
    ensures DifferenceIn(before, after, front + back) == DifferenceIn(before, after, front) + DifferenceIn(before, after, back)
    decreases |front|
  {
    if front == [] {
      assert front + back == back;
    } else {
      assert (front + back)[1..] == front[1..] + back;
      DifferenceInSplit(before, after, front[1..], back);
    }
  }

  /** One visited member's reports follow those of the members before it. */
  lemma MemberReports(before: Json, after: Json, members: seq<string>, i: nat, path: string)
    requires i < |members|
    ensures Reports(path, DifferenceIn(before, after, members[..i + 1])) ==
      Reports(path, DifferenceIn(before, after, members[..i])) +
      Reports(path + "/" + Escape(members[i]), DifferenceAt(before, after, members[i]))
  {
    var token := members[i];
    var inside := DifferenceAt(before, after, token);
    assert members[..i + 1] == members[..i] + [token];
    DifferenceInSplit(before, after, members[..i], [token]);
    assert [token][1..] == [];
    assert DifferenceIn(before, after, [token]) == Under(token, inside) + [];
    ReportsAppend(path, DifferenceIn(before, after, members[..i]), Under(token, inside));
    ReportsUnder(path, token, inside);
  }

  lemma MemberAppended(result: seq<Report>, before: Json, after: Json, members: seq<string>, i: nat, path: string)
    requires i < |members|
    ensures result + Reports(path, DifferenceIn(before, after, members[..i + 1])) ==
      result + Reports(path, DifferenceIn(before, after, members[..i])) +
      Reports(path + "/" + Escape(members[i]), DifferenceAt(before, after, members[i]))
  {
    MemberReports(before, after, members, i, path);
  }

  /** Append the changes from `before` to `after` below `path` to `result`. */
  method Diff(before: Json, after: Json, path: string, result: seq<Report>) returns (out: seq<Report>)
    ensures out == result + Reports(path, Difference(before, after))
    decreases before, 2
  {
    if before == after {
      out := result;
    } else if before.Obj? && after.Obj? {
      var keys := KeysInOrder(before.fields.Keys + after.fields.Keys);
      out := DiffKeys(before, after, keys, path, result);
    } else if before.Arr? && after.Arr? {
      out := DiffArrays(before, after, path, result);
    } else {
      out := result + [Report(path, Changed)];
    }
  }

  /** The loop over the keys of either object. */
  method DiffKeys(before: Json, after: Json, keys: seq<string>, path: string, result: seq<Report>) returns (out: seq<Report>)
    requires before.Obj? && after.Obj?
    ensures out == result + Reports(path, DifferenceIn(before, after, keys))
    decreases before, 1
  {
    out := result;
    for i := 0 to |keys|
      invariant out == result + Reports(path, DifferenceIn(before, after, keys[..i]))
    {
      var key := keys[i];
      var a := if key in before.fields then Some(before.fields[key]) else None;
      var b := if key in after.fields then Some(after.fields[key]) else None;
      out := DiffMember(before, after, key, a, b, path + "/" + Escape(key), out);
      MemberAppended(result, before, after, keys, i, path);
    }
    assert keys[..|keys|] == keys;
  }

  /** The loop over the indices of either array. */
  method DiffArrays(before: Json, after: Json, path: string, result: seq<Report>) returns (out: seq<Report>)
    requires before.Arr? && after.Arr?
    ensures out == result + Reports(path, DifferenceIn(before, after, Members(before, after)))
    decreases before, 1
  {
    ghost var indices := Members(before, after);
    out := result;
    for i := 0 to Max(|before.items|, |after.items|)
      invariant out == result + Reports(path, DifferenceIn(before, after, indices[..i]))
    {
      IndexDecimal(i);
      var a := if i < |before.items| then Some(before.items[i]) else None;
      var b := if i < |after.items| then Some(after.items[i]) else None;
      out := DiffMember(before, after, Decimal(i), a, b, path + "/" + Decimal(i), out);
      EscapeDecimal(i);
      MemberAppended(result, before, after, indices, i, path);
    }
    assert indices[..|indices|] == indices;
  }

  /** The four cases of one member. */
  method DiffMember(ghost before: Json, ghost after: Json, ghost token: string, a: Option<Json>, b: Option<Json>,
                    path: string, result: seq<Report>) returns (out: seq<Report>)
    requires a == Child(before, token) && b == Child(after, token)
    ensures out == result + Reports(path, DifferenceAt(before, after, token))
    decreases before, 0
  {
    match (a, b)
    case (Some(x), Some(y)) => out := Diff(x, y, path, result);
    case (None, Some(_)) => out := result + [Report(path, Added)];
    case (Some(_), None) => out := result + [Report(path, Removed)];
    case (None, None) => out := result;
  }
}
