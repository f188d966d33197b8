/** That what the host API's receipts say about an outcome is what happened. */
module HostOutcomes {
  import opened Wrappers
  import R = Review
  import opened HostApi
  import opened HostService

  // Host actions.

  /** Step `k` ran systemctl for `rid` and it exited with `code`. */
  ghost predicate Exits(labels: seq<Label>, k: nat, rid: string, code: int)
    requires k < |labels|
  {
    && labels[k].RunAction? && labels[k].code == Some(code)
    && var w := Run(labels[..k]);
       labels[k].thread in w.threads && w.threads[labels[k].thread].Acting? && w.threads[labels[k].thread].rid == rid
  }

  ghost predicate Exited(labels: seq<Label>, rid: string, zero: bool) {
    exists k, code :: 0 <= k < |labels| && Exits(labels, k, rid, code) && (code == 0) == zero
  }

  ghost predicate Backed(labels: seq<Label>, rid: string, state: ActionState) {
    (state == Succeeded ==> Exited(labels, rid, true)) && (state == ActionFailed ==> Exited(labels, rid, false))
  }

  ghost predicate AllBacked(labels: seq<Label>, w: World) {
    && (forall rid :: rid in w.actions ==> Backed(labels, rid, w.actions[rid].state))
    && (forall t :: t in w.threads && w.threads[t].Acting? ==> Backed(labels, w.threads[t].rid, w.threads[t].acting.state))
  }

  lemma StillExited(labels: seq<Label>, l: Label, rid: string, zero: bool)
    requires Exited(labels, rid, zero)
    ensures Exited(labels + [l], rid, zero)
  {
    hide Run;
    var k, code :| 0 <= k < |labels| && Exits(labels, k, rid, code) && (code == 0) == zero;
    assert (labels + [l])[..k] == labels[..k] && (labels + [l])[k] == labels[k];
    assert Exits(labels + [l], k, rid, code);
  }

  lemma StillBacked(labels: seq<Label>, l: Label, rid: string, state: ActionState)
    requires Backed(labels, rid, state)
    ensures Backed(labels + [l], rid, state)
  {
    if state == Succeeded {
      StillExited(labels, l, rid, true);
    }
    if state == ActionFailed {
      StillExited(labels, l, rid, false);
    }
  }

  /** Where the state of an action comes from in one step: from before, from
      nowhere, or from the exit of the systemctl this step ran. */
  ghost predicate ComesFrom(w: World, l: Label, rid: string, state: ActionState) {
    || state == ActionUnknown
    || (rid in w.actions && w.actions[rid].state == state)
    || (exists t :: t in w.threads && w.threads[t].Acting? && w.threads[t].rid == rid && w.threads[t].acting.state == state)
    || (l.RunAction? && l.thread in w.threads && w.threads[l.thread].Acting? && w.threads[l.thread].rid == rid && state == Exit(l.code))
  }

  ghost predicate AllFrom(w: World, l: Label, w': World) {
    && (forall rid :: rid in w'.actions ==> ComesFrom(w, l, rid, w'.actions[rid].state))
    && (forall t :: t in w'.threads && w'.threads[t].Acting? ==> ComesFrom(w, l, w'.threads[t].rid, w'.threads[t].acting.state))
  }

  lemma InsertFrom(w: World, l: Label)
    requires l.StartAction? || l.StartDecision?
    ensures AllFrom(w, l, Insert(w, l))
  {
  }

  lemma ActionFrom(w: World, l: Label)
    requires OfAction(l) && l.thread in w.threads && w.threads[l.thread].Acting?
    ensures AllFrom(w, l, ApplyAction(w, l, w.threads[l.thread]))
  {
  }

  /** A decision's step concerns no action. */
  lemma DecisionFrom(w: World, l: Label)
    requires OfDecision(l) && l.thread in w.threads && w.threads[l.thread].Deciding?
    ensures AllFrom(w, l, ApplyDecision(w, l, w.threads[l.thread]))
  {
    DecisionWrites(w, l);
    DecisionThreads(w, l);
    hide ApplyDecision;
  }

  lemma DecisionThreads(w: World, l: Label)
    requires OfDecision(l) && l.thread in w.threads && w.threads[l.thread].Deciding?
    ensures var w' := ApplyDecision(w, l, w.threads[l.thread]);
      forall t :: t in w'.threads && w'.threads[t].Acting? ==> t in w.threads && w.threads[t] == w'.threads[t]
  {
    hide Worked, After;
  }

  lemma StepFrom(w: World, l: Label)
    ensures AllFrom(w, l, Apply(w, l))
  {
    hide ApplyAction, ApplyDecision, Insert, Starts, Restored;
    if l.StartAction? || l.StartDecision? {
      InsertFrom(w, l);
    } else if !l.Reviewing? && !l.Syncing? && !l.Restarting? && !l.LosingPower? && l.thread in w.threads {
      if w.threads[l.thread].Acting? && OfAction(l) {
        ActionFrom(w, l);
      } else if w.threads[l.thread].Deciding? && OfDecision(l) {
        DecisionFrom(w, l);
      }
    }
  }

  lemma BackedNext(before: seq<Label>, l: Label, rid: string, state: ActionState)
    requires AllBacked(before, Run(before)) && ComesFrom(Run(before), l, rid, state)
    ensures Backed(before + [l], rid, state)
  {
    hide Run, Exits;
    var w, labels := Run(before), before + [l];
    if Backed(before, rid, state) {
      StillBacked(before, l, rid, state);
    } else {
      assert labels[..|before|] == before && labels[|before|] == l;
      assert l.RunAction? && l.code.Some?;
      ExitsLast(before, l, rid);
    }
  }

  lemma ExitsLast(before: seq<Label>, l: Label, rid: string)
    requires l.RunAction? && l.code.Some? && l.thread in Run(before).threads
    requires Run(before).threads[l.thread].Acting? && Run(before).threads[l.thread].rid == rid
    ensures Exited(before + [l], rid, l.code.value == 0)
  {
    hide Run;
    var labels := before + [l];
    assert labels[..|before|] == before && labels[|before|] == l;
    assert Exits(labels, |before|, rid, l.code.value);
  }

  lemma {:induction false} RunBacked(labels: seq<Label>)
    ensures AllBacked(labels, Run(labels))
  {
    if labels != [] {
      var before, l := labels[..|labels| - 1], labels[|labels| - 1];
      assert before + [l] == labels;
      RunBacked(before);
      assert Run(labels) == Apply(Run(before), l);
      hide Run, Apply, ComesFrom, Backed;
      StepFrom(Run(before), l);
      forall rid | rid in Run(labels).actions
        ensures Backed(labels, rid, Run(labels).actions[rid].state)
      {
        BackedNext(before, l, rid, Run(labels).actions[rid].state);
      }
      forall t | t in Run(labels).threads && Run(labels).threads[t].Acting?
        ensures Backed(labels, Run(labels).threads[t].rid, Run(labels).threads[t].acting.state)
      {
        BackedNext(before, l, Run(labels).threads[t].rid, Run(labels).threads[t].acting.state);
      }
    }
  }

  /** A stored action says succeeded only if its systemctl exited with zero, and
      failed only if it exited with something else. */
  lemma ActionOutcomesAreReal(labels: seq<Label>, rid: string)
    requires rid in Run(labels).actions
    ensures Run(labels).actions[rid].state == Succeeded ==> Exited(labels, rid, true)
    ensures Run(labels).actions[rid].state == ActionFailed ==> Exited(labels, rid, false)
  {
    RunBacked(labels);
  }

  // Drains.

  /** Step `k` asked systemctl to start the worker for `rid`, after its decision was
      committed, and it exited with zero. */
  ghost predicate Starts0(labels: seq<Label>, k: nat, rid: string)
    requires k < |labels|
  {
    && labels[k].ScheduleDrain? && labels[k].code == Some(0)
    && var w := Run(labels[..k]);
       && labels[k].thread in w.threads && w.threads[labels[k].thread].Deciding?
       && w.threads[labels[k].thread].rid == rid && w.threads[labels[k].thread].phase == Committed
  }

  ghost predicate DrainStarted(labels: seq<Label>, rid: string) {
    exists k :: 0 <= k < |labels| && Starts0(labels, k, rid)
  }

  ghost predicate DrainsBacked(labels: seq<Label>, w: World) {
    && (forall rid :: rid in w.decisions && w.decisions[rid].drain == Queued ==> DrainStarted(labels, rid))
    && (forall t :: t in w.threads && w.threads[t].Deciding? && w.threads[t].row.drain == Queued ==> DrainStarted(labels, w.threads[t].rid))
  }

  lemma StillStarted(labels: seq<Label>, l: Label, rid: string)
    requires DrainStarted(labels, rid)
    ensures DrainStarted(labels + [l], rid)
  {
    hide Run;
    var k :| 0 <= k < |labels| && Starts0(labels, k, rid);
    assert (labels + [l])[..k] == labels[..k] && (labels + [l])[k] == labels[k];
    assert Starts0(labels + [l], k, rid);
  }

  /** Where a queued drain comes from in one step. */
  ghost predicate QueuedFrom(w: World, l: Label, rid: string) {
    || (rid in w.decisions && w.decisions[rid].drain == Queued)
    || (exists t :: t in w.threads && w.threads[t].Deciding? && w.threads[t].rid == rid && w.threads[t].row.drain == Queued)
    || (&& l.ScheduleDrain? && l.code == Some(0) && l.thread in w.threads && w.threads[l.thread].Deciding?
        && w.threads[l.thread].rid == rid && w.threads[l.thread].phase == Committed)
  }

  ghost predicate AllQueuedFrom(w: World, l: Label, w': World) {
    && (forall rid :: rid in w'.decisions && w'.decisions[rid].drain == Queued ==> QueuedFrom(w, l, rid))
    && (forall t :: t in w'.threads && w'.threads[t].Deciding? && w'.threads[t].row.drain == Queued ==> QueuedFrom(w, l, w'.threads[t].rid))
  }

  lemma InsertQueued(w: World, l: Label)
    requires l.StartAction? || l.StartDecision?
    ensures AllQueuedFrom(w, l, Insert(w, l))
  {
  }

  lemma ActionQueued(w: World, l: Label)
    requires OfAction(l) && l.thread in w.threads && w.threads[l.thread].Acting?
    ensures AllQueuedFrom(w, l, ApplyAction(w, l, w.threads[l.thread]))
  {
  }

  /** A decision's step writes its own row at most, and its own thread. */
  lemma DecisionQueued(w: World, l: Label)
    requires OfDecision(l) && l.thread in w.threads && w.threads[l.thread].Deciding?
    ensures AllQueuedFrom(w, l, ApplyDecision(w, l, w.threads[l.thread]))
  {
    DecisionWrites(w, l);
    OwnThread(w, l);
    hide ApplyDecision;
  }

  lemma OwnThread(w: World, l: Label)
    requires OfDecision(l) && l.thread in w.threads && w.threads[l.thread].Deciding?
    ensures var w', th := ApplyDecision(w, l, w.threads[l.thread]), w.threads[l.thread];
      forall t :: t in w'.threads && w'.threads[t].Deciding? && w'.threads[t].row.drain == Queued ==>
        || (t in w.threads && w.threads[t] == w'.threads[t])
        || (w'.threads[t].rid == th.rid && (th.row.drain == Queued || (l.ScheduleDrain? && l.code == Some(0) && th.phase == Committed)))
  {
    hide Worked;
  }

  lemma StepQueued(w: World, l: Label)
    ensures AllQueuedFrom(w, l, Apply(w, l))
  {
    hide ApplyAction, ApplyDecision, Insert, Starts, Restored;
    if l.StartAction? || l.StartDecision? {
      InsertQueued(w, l);
    } else if !l.Reviewing? && !l.Syncing? && !l.Restarting? && !l.LosingPower? && l.thread in w.threads {
      if w.threads[l.thread].Acting? && OfAction(l) {
        ActionQueued(w, l);
      } else if w.threads[l.thread].Deciding? && OfDecision(l) {
        DecisionQueued(w, l);
      }
    }
  }

  lemma StartedNext(before: seq<Label>, l: Label, rid: string)
    requires DrainsBacked(before, Run(before)) && QueuedFrom(Run(before), l, rid)
    ensures DrainStarted(before + [l], rid)
  {
    hide Run;
    var labels := before + [l];
    if DrainStarted(before, rid) {
      StillStarted(before, l, rid);
    } else {
      assert labels[..|before|] == before && labels[|before|] == l;
      assert Starts0(labels, |before|, rid);
    }
  }

  /** A decision's drain says queued only if the worker's start was asked for after
      the decision was committed, and succeeded. */
  lemma {:induction false} QueuedDrainsWereStarted(labels: seq<Label>)
    ensures DrainsBacked(labels, Run(labels))
  {
    if labels != [] {
      var before, l := labels[..|labels| - 1], labels[|labels| - 1];
      assert before + [l] == labels;
      QueuedDrainsWereStarted(before);
      assert Run(labels) == Apply(Run(before), l);
      hide Run, Apply, QueuedFrom, DrainStarted;
      StepQueued(Run(before), l);
      forall rid | rid in Run(labels).decisions && Run(labels).decisions[rid].drain == Queued
        ensures DrainStarted(labels, rid)
      {
        StartedNext(before, l, rid);
      }
      forall t | t in Run(labels).threads && Run(labels).threads[t].Deciding? && Run(labels).threads[t].row.drain == Queued
        ensures DrainStarted(labels, Run(labels).threads[t].rid)
      {
        StartedNext(before, l, Run(labels).threads[t].rid);
      }
    }
  }
}
