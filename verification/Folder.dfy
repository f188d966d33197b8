/** A private directory as the methods of the worker that change it, call by call.
    `calls` is how many more system calls succeed before the process dies or the
    disk fails, so one contract covers every interruption. */
module Folder {
  import opened Wrappers
  import opened Publication
  import R = Reservations

  lemma {:induction false} UnlinkedOne(d: Dir, order: seq<string>, name: string)
    ensures R.Unlinked(d, order + [name]) == Unlink(R.Unlinked(d, order), name)
    decreases |order|
  {
    if order == [] {
      assert (order + [name])[1..] == [];
    } else {
      assert (order + [name])[1..] == order[1..] + [name];
      UnlinkedOne(Unlink(d, order[0]), order[1..], name);
    }
  }

  lemma {:induction false} UnlinkedNames(d: Dir, order: seq<string>)
    ensures R.Unlinked(d, order).nodes == d.nodes
    ensures R.Unlinked(d, order).names == d.names - set n | n in order
    decreases |order|
  {
    if order == [] {
      assert d.names - (set n | n in order) == d.names;
    } else {
      UnlinkedNames(Unlink(d, order[0]), order[1..]);
      assert (set n | n in order) == {order[0]} + set n | n in order[1..];
    }
  }

  datatype Recovery = Rejected | Interrupted | Done

  class Folder {
    var names: map<string, nat>
    var nodes: seq<Node>
    var journal: seq<map<string, nat>>
    var calls: nat

    ghost function View(): Dir
      reads this
    {
      Dir(names, nodes, journal)
    }

    /** Whether one more call succeeds. */
    method Call() returns (ok: bool)
      modifies this`calls
      ensures ok <==> old(calls) > 0
      ensures calls == if ok then old(calls) - 1 else 0
    {
      ok := calls > 0;
      if ok {
        calls := calls - 1;
      }
    }

    method SyncDirectory() returns (ok: bool)
      modifies this
      ensures ok <==> old(calls) > 0
      ensures calls == if ok then old(calls) - 1 else 0
      ensures View() == if ok then Sync(old(View())) else old(View())
    {
      ok := Call();
      if ok {
        journal := [];
      }
    }

    method RemoveFile(name: string) returns (ok: bool)
      modifies this
      ensures ok <==> old(calls) > 0
      ensures calls == if ok then old(calls) - 1 else 0
      ensures View() == if ok then Unlink(old(View()), name) else old(View())
    {
      ok := Call();
      if ok {
        names, journal := names - {name}, journal + [names];
      }
    }

    method CreateNew(name: string) returns (ok: bool)
      modifies this
      ensures ok <==> old(calls) > 0
      ensures calls == if ok then old(calls) - 1 else 0
      ensures View() == if ok then Create(old(View()), name) else old(View())
    {
      ok := Call();
      if ok {
        names, nodes, journal := names[name := |nodes|], nodes + [Node([], false)], journal + [names];
      }
    }

    method HardLink(from: string, to: string) returns (ok: bool)
      requires from in names
      modifies this
      ensures ok <==> to !in old(names) && old(calls) > 0
      ensures to in old(names) ==> View() == old(View()) && calls == old(calls)
      ensures to !in old(names) ==> calls == if ok then old(calls) - 1 else 0
      ensures View() == if ok then Link(old(View()), from, to) else old(View())
    {
      if to in names {
        return false;
      }
      ok := Call();
      if ok {
        names, journal := names[to := names[from]], journal + [names];
      }
    }

    /** Write a file just created, a byte at a time, and sync it. */
    method WriteAndSync(i: nat, content: seq<Byte>) returns (ok: bool)
      requires i < |nodes| && nodes[i] == Node([], false)
      modifies this
      ensures ok <==> old(calls) > |content|
      ensures calls == if ok then old(calls) - |content| - 1 else 0
      ensures View() == Fill(old(View()), i, if ok then Node(content, true) else Node(content[..old(calls)], false))
    {
      var written := 0;
      while written < |content|
        invariant written <= |content| && written <= old(calls) && calls == old(calls) - written
        invariant View() == Fill(old(View()), i, Node(content[..written], false))
      {
        ok := Call();
        if !ok {
          return;
        }
        assert content[..written + 1] == content[..written] + [content[written]];
        nodes := nodes[i := Node(nodes[i].content + [content[written]], false)];
        written := written + 1;
      }
      assert content[..written] == content;
      ok := Call();
      if ok {
        nodes := nodes[i := Node(content, true)];
      }
    }

    /** Publish `content` under `name`, never replacing it. */
    method WritePrivate(name: string, content: seq<Byte>) returns (ok: bool)
      modifies this
      ensures View() == Written(old(View()), name, content, old(calls))
      ensures ok <==> name !in old(names) && old(calls) >= Steps(old(View()), name, content)
    {
      StagingDiffers(name);
      if Staging(name) in names {
        ok := RemoveFile(Staging(name));
        if !ok {
          return;
        }
        ok := SyncDirectory();
        if !ok {
          return;
        }
      }
      ok := WriteStaged(name, content);
    }

    method WriteStaged(name: string, content: seq<Byte>) returns (ok: bool)
      modifies this
      ensures View() == Staged(old(View()), name, content, old(calls))
      ensures ok <==> name !in old(names) && old(calls) >= |content| + 6
    {
      StagingDiffers(name);
      var i := |nodes|;
      ok := CreateNew(Staging(name));
      if !ok {
        return;
      }
      ok := WriteAndSync(i, content);
      if !ok {
        return;
      }
      ok := Publish(name);
    }

    method Publish(name: string) returns (ok: bool)
      requires Staging(name) in names
      modifies this
      ensures View() == Linked(old(View()), name, old(calls))
      ensures ok <==> name !in old(names) && old(calls) >= 4
    {
      ok := HardLink(Staging(name), name);
      if !ok {
        return;
      }
      ok := SyncDirectory();
      if !ok {
        return;
      }
      ok := RemoveFile(Staging(name));
      if !ok {
        return;
      }
      ok := SyncDirectory();
    }

    method ReadPublished(name: string, max: nat) returns (r: Result<Option<seq<Byte>>, ReadError>)
      requires Sound(View())
      ensures r == ReadAt(View(), name, max)
    {
      if name !in names {
        return Ok(None);
      }
      var node := names[name];
      var links := |Sharing(names, node)|;
      if links != 1 {
        if Staging(name) !in names || links != 2 || names[Staging(name)] != node {
          return Err(UnexpectedLink);
        }
      }
      var content := nodes[node].content;
      return if |content| > max then Err(TooLong) else Ok(Some(content));
    }

    /** Check every hidden name of a listing, then remove them. */
    method RecoverStaging(listing: seq<string>) returns (r: Recovery)
      requires Sound(View()) && forall n :: n in listing <==> n in names
      modifies this
      ensures r == Rejected <==> !R.Recoverable(old(View()))
      ensures r == Rejected ==> View() == old(View())
      ensures r == Done ==> View() == R.Recovered(old(View()))
      ensures r == Interrupted ==>
        exists order :: (forall i :: 0 <= i < |order| ==> R.Hidden(order[i])) && View() == R.Unlinked(old(View()), order)
      ensures r == Interrupted ==> calls == 0 && old(calls) <= |listing|
    {
      var staging := [];
      for i := 0 to |listing|
        invariant View() == old(View()) && calls == old(calls) && |staging| <= i
        invariant forall n :: n in staging <==> n in listing[..i] && R.Hidden(n)
        invariant forall n :: n in listing[..i] && R.Hidden(n) ==> R.Explained(View(), n)
      {
        var name := listing[i];
        assert listing[..i + 1] == listing[..i] + [name];
        assert name in listing;
        if R.Hidden(name) {
          if R.JobOf(name).None? || nodes[names[name]].content != [] {
            return Rejected;
          }
          var job := R.JobOf(name).value;
          if job in names {
            if |Sharing(names, names[name])| != 2 || |Sharing(names, names[job])| != 2 || names[job] != names[name] {
              return Rejected;
            }
          } else if |Sharing(names, names[name])| != 1 {
            return Rejected;
          }
          staging := staging + [name];
        }
      }
      assert listing[..|listing|] == listing;
      r := RemoveAll(staging);
    }

    method RemoveAll(staging: seq<string>) returns (r: Recovery)
      requires forall n :: n in staging <==> n in names && R.Hidden(n)
      modifies this
      ensures r != Rejected
      ensures r == Done ==> View() == R.Recovered(old(View()))
      ensures r == Interrupted ==>
        exists order :: (forall i :: 0 <= i < |order| ==> R.Hidden(order[i])) && View() == R.Unlinked(old(View()), order)
      ensures r == Interrupted ==> calls == 0 && old(calls) <= |staging|
    {
      for i := 0 to |staging|
        invariant View() == R.Unlinked(old(View()), staging[..i]) && calls + i == old(calls)
      {
        var ok := RemoveFile(staging[i]);
        if !ok {
          return Interrupted;
        }
        UnlinkedOne(old(View()), staging[..i], staging[i]);
        assert staging[..i + 1] == staging[..i] + [staging[i]];
      }
      assert staging[..|staging|] == staging;
      UnlinkedNames(old(View()), staging);
      assert (set n | n in staging) == R.HiddenNames(old(names));
      if staging != [] {
        var ok := SyncDirectory();
        if !ok {
          return Interrupted;
        }
        assert staging[0] in R.HiddenNames(old(names));
      }
      return Done;
    }
  }
}
