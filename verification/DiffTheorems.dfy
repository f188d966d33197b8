/** What a proposal's change list says about the two configurations. */
module DiffTheorems {
  import opened Wrappers
  import opened Json
  import opened Pointer
  import opened Diff

  // Members of a container.

  lemma MembersSound(before: Json, after: Json, token: string)
    requires SameContainer(before, after)
    ensures token in Members(before, after) <==> Child(before, token).Some? || Child(after, token).Some?
  {
    if before.Arr? {
      var members := Members(before, after);
      if Index(token).Some? {
        IndexUnique(token);
        var i := Index(token).value;
        assert i < |members| ==> members[i] == token;
      }
      if token in members {
        var i :| 0 <= i < |members| && members[i] == token;
        IndexDecimal(i);
      }
    }
  }

  lemma MembersDistinct(before: Json, after: Json)
    requires SameContainer(before, after)
    ensures var ms := Members(before, after); forall i, j :: 0 <= i < j < |ms| ==> ms[i] != ms[j]
  {
    var ms := Members(before, after);
    if before.Arr? {
      forall i, j | 0 <= i < j < |ms|
        ensures ms[i] != ms[j]
      {
        IndexDecimal(i);
        IndexDecimal(j);
      }
    }
  }

  lemma InUnder(token: string, changes: seq<Change>, c: Change)
    ensures c in Under(token, changes) <==> c.at != [] && c.at[0] == token && Change(c.at[1..], c.kind) in changes
  {
    if c in Under(token, changes) {
      var i :| 0 <= i < |changes| && Under(token, changes)[i] == c;
      assert c.at[1..] == changes[i].at;
      assert changes[i] == Change(c.at[1..], c.kind);
    }
    if c.at != [] && c.at[0] == token && Change(c.at[1..], c.kind) in changes {
      var i :| 0 <= i < |changes| && changes[i] == Change(c.at[1..], c.kind);
      assert [token] + c.at[1..] == c.at;
      assert Under(token, changes)[i] == c;
    }
  }

  lemma {:induction false} InDifferenceIn(before: Json, after: Json, members: seq<string>, c: Change)
    ensures c in DifferenceIn(before, after, members) <==>
      c.at != [] && c.at[0] in members && Change(c.at[1..], c.kind) in DifferenceAt(before, after, c.at[0])
    decreases |members|
  {
    if members != [] {
      InUnder(members[0], DifferenceAt(before, after, members[0]), c);
      InDifferenceIn(before, after, members[1..], c);
      assert forall t :: t in members <==> t == members[0] || t in members[1..];
    }
  }

  /** Below a container, a change is a change of one member. */
  lemma InContainer(before: Json, after: Json, c: Change)
    requires before != after && SameContainer(before, after)
    ensures c in Difference(before, after) <==> c.at != [] && Change(c.at[1..], c.kind) in DifferenceAt(before, after, c.at[0])
  {
    InDifferenceIn(before, after, Members(before, after), c);
    if c.at != [] {
      MembersSound(before, after, c.at[0]);
    }
  }

  // Soundness: every change is where and what it says.

  ghost predicate Present(before: Json, after: Json, at: seq<string>) {
    var x, y := Lookup(Some(before), at), Lookup(Some(after), at);
    x.Some? && y.Some? && SameContainer(x.value, y.value)
  }

  /** The location was added, removed or changed as stated, and every container
      above it is on both sides. */
  ghost predicate Tells(before: Json, after: Json, c: Change) {
    var x, y := Lookup(Some(before), c.at), Lookup(Some(after), c.at);
    && (forall n :: 0 <= n < |c.at| ==> Present(before, after, c.at[..n]))
    && match c.kind
       case Added => x.None? && y.Some?
       case Removed => x.Some? && y.None?
       case Changed => x.Some? && y.Some? && x != y && !SameContainer(x.value, y.value)
  }

  lemma LookupCons(j: Json, token: string, rest: seq<string>)
    ensures Lookup(Some(j), [token] + rest) == Lookup(Child(j, token), rest)
  {
    assert ([token] + rest)[1..] == rest;
  }

  lemma TellsCons(before: Json, after: Json, token: string, a: Json, b: Json, c: Change)
    requires SameContainer(before, after) && Child(before, token) == Some(a) && Child(after, token) == Some(b)
    requires Tells(a, b, c)
    ensures Tells(before, after, Change([token] + c.at, c.kind))
  {
    var at := [token] + c.at;
    LookupCons(before, token, c.at);
    LookupCons(after, token, c.at);
    forall n | 0 <= n < |at|
      ensures Present(before, after, at[..n])
    {
      if n > 0 {
        assert at[..n] == [token] + c.at[..n - 1];
        LookupCons(before, token, c.at[..n - 1]);
        LookupCons(after, token, c.at[..n - 1]);
        assert Present(a, b, c.at[..n - 1]);
      }
    }
  }

  lemma TellsMember(before: Json, after: Json, token: string, kind: Kind)
    requires SameContainer(before, after)
    requires kind == Added ==> Child(before, token).None? && Child(after, token).Some?
    requires kind == Removed ==> Child(before, token).Some? && Child(after, token).None?
    requires kind != Changed
    ensures Tells(before, after, Change([token], kind))
  {
    LookupCons(before, token, []);
    LookupCons(after, token, []);
    assert [token] + [] == [token];
    assert [token][..0] == [];
  }

  lemma {:induction false} EveryChangeTells(before: Json, after: Json, c: Change)
    requires c in Difference(before, after)
    ensures Tells(before, after, c)
    decreases before
  {
    if SameContainer(before, after) {
      InContainer(before, after, c);
      var token, inner := c.at[0], Change(c.at[1..], c.kind);
      assert [token] + inner.at == c.at;
      match (Child(before, token), Child(after, token))
      case (Some(a), Some(b)) =>
        EveryChangeTells(a, b, inner);
        TellsCons(before, after, token, a, b, inner);
      case (None, Some(_)) =>
        assert c == Change([token], Added);
        TellsMember(before, after, token, Added);
      case (Some(_), None) =>
        assert c == Change([token], Removed);
        TellsMember(before, after, token, Removed);
      case (None, None) =>
    }
  }

  // Completeness: nothing else changed.

  lemma {:induction false} EmptyIffEqual(before: Json, after: Json)
    ensures Difference(before, after) == [] <==> before == after
    decreases before
  {
    if before != after && SameContainer(before, after) {
      var token := DifferingMember(before, after);
      match (Child(before, token), Child(after, token))
      case (Some(a), Some(b)) =>
        EmptyIffEqual(a, b);
        var inner := Difference(a, b)[0];
        Witness(before, after, token, inner);
      case (None, Some(_)) => Witness(before, after, token, Change([], Added));
      case (Some(_), None) => Witness(before, after, token, Change([], Removed));
    }
  }

  lemma Witness(before: Json, after: Json, token: string, inner: Change)
    requires before != after && SameContainer(before, after) && inner in DifferenceAt(before, after, token)
    ensures Difference(before, after) != []
  {
    var c := Change([token] + inner.at, inner.kind);
    assert c.at[1..] == inner.at;
    InContainer(before, after, c);
  }

  /** Unequal containers of the same kind differ at some member. */
  lemma DifferingMember(before: Json, after: Json) returns (token: string)
    requires before != after && SameContainer(before, after)
    ensures Child(before, token) != Child(after, token)
  {
    if before.Obj? {
      if before.fields.Keys != after.fields.Keys {
        token :| (token in before.fields) != (token in after.fields);
      } else {
        token :| token in before.fields && before.fields[token] != after.fields[token];
      }
    } else {
      var m, n := |before.items|, |after.items|;
      var i: nat;
      if m != n {
        i := if m < n then m else n;
      } else {
        i :| 0 <= i < m && before.items[i] != after.items[i];
      }
      token := Decimal(i);
      IndexDecimal(i);
    }
  }

  /** Equal, both absent, or two containers of the same kind. */
  ghost predicate Agree(x: Option<Json>, y: Option<Json>) {
    x == y || (x.Some? && y.Some? && SameContainer(x.value, y.value))
  }

  /** Outside the reported locations the documents agree: a location with no
      reported one at or above it holds the same thing on both sides, up to what
      is inside it, and exactly the same thing when none is below it either. */
  lemma {:induction false} AgreeElsewhere(before: Json, after: Json, at: seq<string>)
    requires forall c :: c in Difference(before, after) ==> !(c.at <= at)
    ensures Agree(Lookup(Some(before), at), Lookup(Some(after), at))
    ensures (forall c :: c in Difference(before, after) ==> !(at <= c.at)) ==>
      Lookup(Some(before), at) == Lookup(Some(after), at)
    decreases before
  {
    assert before != after && !SameContainer(before, after) ==> Change([], Changed) in Difference(before, after);
    if before == after || !SameContainer(before, after) {
    } else if at == [] {
      EmptyIffEqual(before, after);
      assert at <= Difference(before, after)[0].at;
    } else {
      var token, rest := at[0], at[1..];
      assert [token] + rest == at;
      forall inner | inner in DifferenceAt(before, after, token)
        ensures var c := Change([token] + inner.at, inner.kind);
          && c in Difference(before, after)
          && !(inner.at <= rest) && ((at <= c.at) == (rest <= inner.at))
      {
        var c := Change([token] + inner.at, inner.kind);
        assert c.at[1..] == inner.at;
        InContainer(before, after, c);
        PrefixCons(token, inner.at, rest);
        PrefixCons(token, rest, inner.at);
      }
      var x, y := Child(before, token), Child(after, token);
      assert x.None? && y.Some? ==> Change([], Added) in DifferenceAt(before, after, token);
      assert x.Some? && y.None? ==> Change([], Removed) in DifferenceAt(before, after, token);
      if x.Some? && y.Some? {
        var a, b := x.value, y.value;
        AgreeElsewhere(a, b, rest);
        if forall c :: c in Difference(before, after) ==> !(at <= c.at) {
          forall inner | inner in Difference(a, b)
            ensures !(rest <= inner.at)
          {
            assert Change([token] + inner.at, inner.kind) in Difference(before, after);
          }
        }
      }
    }
  }

  lemma PrefixCons(token: string, a: seq<string>, b: seq<string>)
    ensures ([token] + a <= [token] + b) == (a <= b)
  {
    var x, y := [token] + a, [token] + b;
    assert x[1..] == a && y[1..] == b;
    if a <= b {
      assert b == a + b[|a|..];
      assert y == x + b[|a|..];
    }
    if x <= y {
      assert y == x + y[|x|..];
      assert b == a + y[|x|..];
    }
  }

  // Distinctness: reported locations never overlap.

  ghost predicate Apart(changes: seq<Change>) {
    forall i, j :: 0 <= i < |changes| && 0 <= j < |changes| && i != j ==> !(changes[i].at <= changes[j].at)
  }

  lemma UnderApart(token: string, changes: seq<Change>)
    requires Apart(changes)
    ensures Apart(Under(token, changes))
  {
    var all := Under(token, changes);
    forall i, j | 0 <= i < |all| && 0 <= j < |all| && i != j
      ensures !(all[i].at <= all[j].at)
    {
      PrefixCons(token, changes[i].at, changes[j].at);
    }
  }

  lemma {:induction false} DifferenceApart(before: Json, after: Json)
    ensures Apart(Difference(before, after))
    decreases before, 2
  {
    if before != after && SameContainer(before, after) {
      MembersDistinct(before, after);
      DifferenceInApart(before, after, Members(before, after));
    }
  }

  lemma {:induction false} DifferenceInApart(before: Json, after: Json, members: seq<string>)
    requires forall i, j :: 0 <= i < j < |members| ==> members[i] != members[j]
    ensures Apart(DifferenceIn(before, after, members))
    decreases before, 1, |members|
  {
    if members != [] {
      var token, rest := members[0], members[1..];
      var a, b := Child(before, token), Child(after, token);
      if a.Some? && b.Some? {
        DifferenceApart(a.value, b.value);
      }
      var inside := DifferenceAt(before, after, token);
      UnderApart(token, inside);
      DifferenceInApart(before, after, rest);
      var others := DifferenceIn(before, after, rest);
      forall c | c in others
        ensures c.at != [] && c.at[0] != token
      {
        InDifferenceIn(before, after, rest, c);
      }
      ApartAppend(token, inside, others);
    }
  }

  lemma ApartAppend(token: string, inside: seq<Change>, others: seq<Change>)
    requires Apart(Under(token, inside)) && Apart(others)
    requires forall c :: c in others ==> c.at != [] && c.at[0] != token
    ensures Apart(Under(token, inside) + others)
  {
    var first := Under(token, inside);
    forall i, j | 0 <= i < |first| && 0 <= j < |others|
      ensures !(first[i].at <= others[j].at) && !(others[j].at <= first[i].at)
    {
      assert first[i].at[0] == token && others[j] in others;
    }
  }

  // The same, for the reports a client reads.

  /** Every reported path decodes to a location that was added, removed or changed
      as stated; no two paths are equal; there are none exactly when the documents
      are equal. */
  lemma ReportsAreExact(before: Json, after: Json)
    ensures var reports := Reports("", Difference(before, after));
      && (reports == [] <==> before == after)
      && (forall i :: 0 <= i < |reports| ==>
            && Parse(reports[i].path).Some?
            && Tells(before, after, Change(Parse(reports[i].path).value, reports[i].kind)))
      && (forall i, j :: 0 <= i < j < |reports| ==> reports[i].path != reports[j].path)
  {
    var changes := Difference(before, after);
    var reports := Reports("", changes);
    EmptyIffEqual(before, after);
    DifferenceApart(before, after);
    forall i | 0 <= i < |reports|
      ensures Parse(reports[i].path) == Some(changes[i].at) && Tells(before, after, changes[i])
    {
      ParseRender(changes[i].at);
      EveryChangeTells(before, after, changes[i]);
    }
    forall i, j | 0 <= i < j < |reports|
      ensures reports[i].path != reports[j].path
    {
      assert !(changes[i].at <= changes[j].at);
      assert Parse(reports[i].path) != Parse(reports[j].path);
    }
  }
}
