/** What holds of every run of the host API's receipts, and the service that keeps
    them, one request after another. */
module HostService {
  import opened Wrappers
  import R = Review
  import opened HostApi

  /** No request id reaches systemctl twice. */
  lemma EachActionRunsOnce(labels: seq<Label>, i: nat, j: nat)
    requires i < |Run(labels).acted| && j < |Run(labels).acted| && Run(labels).acted[i] == Run(labels).acted[j]
    ensures i == j
  {
    RunSound(labels);
  }

  /** No request id reaches a worker twice. */
  lemma EachDecisionIsDispatchedOnce(labels: seq<Label>, i: nat, j: nat)
    requires i < |Run(labels).dispatched| && j < |Run(labels).dispatched| && Run(labels).dispatched[i] == Run(labels).dispatched[j]
    ensures i == j
  {
    RunSound(labels);
  }

  /** A receipt marked failed proves its dispatch recorded nothing. One marked
      recorded proves the worker holds exactly that decision, if it was answered
      from stable storage, or as long as no power is lost. */
  lemma ReceiptsTellTheTruth(labels: seq<Label>, rid: string)
    requires rid in Run(labels).decisions
    ensures var w, row := Run(labels), Run(labels).decisions[rid];
      && (row.state == Failed ==> rid !in w.published)
      && (row.state == Recorded && (rid in w.synced || !w.lost) ==> HasDecision(w.files, row.intent))
      && (row.state == Recorded && rid in w.synced ==> OnStableStorage(w.files, row.intent))
  {
    RunSound(labels);
    var w, i := Run(labels), Run(labels).decisions[rid].intent;
    assert True(w, rid, w.decisions[rid]);
    assert i.agent in w.files ==> R.Extends(w.files[i.agent].durable, w.files[i.agent].decisions);
  }

  lemma RunMore(labels: seq<Label>, l: Label)
    ensures Run(labels + [l]) == Apply(Run(labels), l)
  {
    assert (labels + [l])[..|labels|] == labels;
  }

  lemma RunThree(labels: seq<Label>, x: Label, y: Label, z: Label)
    ensures Run(labels + [x, y, z]) == Apply(Apply(Apply(Run(labels), x), y), z)
  {
    hide Run, Apply;
    RunMore(labels, x);
    RunMore(labels + [x], y);
    RunMore(labels + [x] + [y], z);
    assert labels + [x] + [y] + [z] == labels + [x, y, z];
  }

  /** The condition is exact: what is recorded but not on stable storage is gone
      after a power loss, and its receipt still says recorded. */
  lemma UnsyncedReceiptCanOutliveItsDecision(labels: seq<Label>, rid: string)
    requires rid in Run(labels).decisions && !OnStableStorage(Run(labels).files, Run(labels).decisions[rid].intent)
    ensures var w := Run(labels + [LosingPower]);
      w.decisions == Run(labels).decisions && !HasDecision(w.files, w.decisions[rid].intent)
  {
    RunMore(labels, LosingPower);
  }

  /** Such a receipt is reached: one request's publication is not synced, and
      another request is answered from it. */
  lemma UnsyncedReceiptHappens(intent: Intent) returns (labels: seq<Label>)
    ensures "2" in Run(labels).decisions && Run(labels).decisions["2"] == Row(intent, Recorded, DrainUnknown)
    ensures !OnStableStorage(Run(labels).files, intent) && "2" !in Run(labels).synced && !Run(labels).lost
  {
    var request := Some(R.Request(intent.receipt.digest, true));
    var unsynced := R.Env(request, false, false, false, Synced, Unsynced);
    assert Run([]) == START;
    hide Run, Apply, Uncertain, OnStableStorage;
    FirstRequest(intent, unsynced);
    SecondRequest(intent, unsynced);
    RunThree([], StartDecision(0, "1", intent, Synced), RunDecision(0, true, unsynced, true), EndDecision(0, Synced));
    var first := [] + [StartDecision(0, "1", intent, Synced), RunDecision(0, true, unsynced, true), EndDecision(0, Synced)];
    RunThree(first, StartDecision(0, "2", intent, Synced), RunDecision(0, true, unsynced, true), CommitDecision(0, Synced));
    labels := first + [StartDecision(0, "2", intent, Synced), RunDecision(0, true, unsynced, true), CommitDecision(0, Synced)];
  }

  /** After the first request: an uncertain receipt, an unsynced decision. */
  function Uncertain(intent: Intent): World {
    START.(decisions := map["1" := Row(intent, Unknown, NotRequested)],
           files := map[intent.agent := R.Files(true, true, map[intent.job := intent.receipt], map[])],
           dispatched := ["1"], published := {"1"})
  }

  lemma FirstWorked(intent: Intent, env: R.Env)
    requires env == R.Env(Some(R.Request(intent.receipt.digest, true)), false, false, false, Synced, Unsynced)
    ensures Worked(NO_FILES, intent, true, env) == (R.Files(true, true, map[intent.job := intent.receipt], map[]), R.Uncertain)
  {
  }

  lemma FirstRequest(intent: Intent, env: R.Env)
    requires env == R.Env(Some(R.Request(intent.receipt.digest, true)), false, false, false, Synced, Unsynced)
    ensures Apply(Apply(Apply(START, StartDecision(0, "1", intent, Synced)), RunDecision(0, true, env, true)), EndDecision(0, Synced))
         == Uncertain(intent)
  {
    hide Worked;
    FirstWorked(intent, env);
    var row := Row(intent, Unknown, NotRequested);
    var w1 := Apply(START, StartDecision(0, "1", intent, Synced));
    assert w1 == START.(decisions := map["1" := row], locked := true, threads := map[0 := Deciding("1", row, Inserted)]);
    var w2 := Apply(w1, RunDecision(0, true, env, true));
    assert w2.threads == map[0 := Deciding("1", row, Ending)];
  }

  lemma SecondRequest(intent: Intent, env: R.Env)
    requires env == R.Env(Some(R.Request(intent.receipt.digest, true)), false, false, false, Synced, Unsynced)
    ensures var w := Apply(Apply(Apply(Uncertain(intent), StartDecision(0, "2", intent, Synced)), RunDecision(0, true, env, true)),
                           CommitDecision(0, Synced));
      && "2" in w.decisions && w.decisions["2"] == Row(intent, Recorded, DrainUnknown)
      && !OnStableStorage(w.files, intent) && "2" !in w.synced && !w.lost
  {
    var row := Row(intent, Unknown, NotRequested);
    var w := Uncertain(intent);
    var w1 := Apply(w, StartDecision(0, "2", intent, Synced));
    assert w1 == w.(decisions := w.decisions["2" := row], locked := true, threads := map[0 := Deciding("2", row, Inserted)]);
    var w2 := Apply(w1, RunDecision(0, true, env, true));
    assert w2.threads == map[0 := Deciding("2", Row(intent, Recorded, DrainUnknown), Holding)];
  }

  /** How receipts may change: what they are about never does, and a proven
      outcome stays. */
  predicate Stays(w: World, w': World) {
    && (forall rid :: rid in w.actions ==>
          rid in w'.actions && w'.actions[rid].agent == w.actions[rid].agent && w'.actions[rid].action == w.actions[rid].action)
    && (forall rid :: rid in w.decisions ==>
          && rid in w'.decisions && w'.decisions[rid].intent == w.decisions[rid].intent
          && (w.decisions[rid].state != Unknown ==> w'.decisions[rid].state == w.decisions[rid].state))
  }

  lemma InsertStays(w: World, l: Label)
    requires (l.StartAction? || l.StartDecision?) && Starts(w, l)
    ensures Stays(w, Insert(w, l))
  {
  }

  lemma ActionStays(w: World, l: Label)
    requires OfAction(l) && l.thread in w.threads && w.threads[l.thread].Acting? && ThreadSound(w, w.threads[l.thread])
    ensures Stays(w, ApplyAction(w, l, w.threads[l.thread]))
  {
  }

  /** A step of a decision changes the tables by writing its own row, if at all. */
  lemma DecisionWrites(w: World, l: Label)
    requires OfDecision(l) && l.thread in w.threads && w.threads[l.thread].Deciding?
    ensures var th, w' := w.threads[l.thread], ApplyDecision(w, l, w.threads[l.thread]);
      w'.actions == w.actions && (w'.decisions == w.decisions || w'.decisions == w.decisions[th.rid := th.row])
  {
    hide Worked, After;
  }

  lemma DecisionStays(w: World, l: Label)
    requires OfDecision(l) && l.thread in w.threads && w.threads[l.thread].Deciding? && ThreadSound(w, w.threads[l.thread])
    ensures Stays(w, ApplyDecision(w, l, w.threads[l.thread]))
  {
    hide ApplyDecision, True;
    DecisionWrites(w, l);
  }

  lemma StepStays(w: World, l: Label)
    requires forall t :: t in w.threads ==> ThreadSound(w, w.threads[t])
    ensures Stays(w, Apply(w, l))
  {
    if l.StartAction? || l.StartDecision? {
      if Starts(w, l) {
        InsertStays(w, l);
      }
    } else if !l.Reviewing? && !l.Syncing? && !l.Restarting? && !l.LosingPower? && l.thread in w.threads {
      if w.threads[l.thread].Acting? && OfAction(l) {
        ActionStays(w, l);
      } else if w.threads[l.thread].Deciding? && OfDecision(l) {
        DecisionStays(w, l);
      }
    }
  }

  /** An id is bound to one request forever, and a recorded decision is never
      downgraded. */
  lemma {:induction false} ReceiptsAreBound(labels: seq<Label>, k: nat)
    requires k <= |labels|
    ensures Stays(Run(labels[..k]), Run(labels))
    decreases |labels|
  {
    if k == |labels| {
      assert labels[..k] == labels;
    } else {
      var before := labels[..|labels| - 1];
      assert before[..k] == labels[..k];
      ReceiptsAreBound(before, k);
      RunSound(before);
      StepStays(Run(before), labels[|labels| - 1]);
    }
  }

  // The service.

  /** A thread that did not start, or has ended, takes no further step. */
  lemma NoThread(w: World, l: Label)
    requires (OfAction(l) || OfDecision(l)) && l.thread !in w.threads
    ensures Apply(w, l) == w
  {
  }

  lemma RunIsDispatch(w: World, t: nat, ran: bool, env: R.Env, delivered: bool)
    requires t in w.threads && w.threads[t].Deciding? && w.threads[t].phase == Inserted
    ensures Apply(w, RunDecision(t, ran, env, delivered)) == Dispatch(w, t, ran, env, delivered)
  {
  }

  /** Only the worker's explicit refusals mark a receipt failed, only its receipt
      marks it recorded, and only that is left to commit. */
  lemma AfterWorker(row: Row, answer: Option<R.Answer>)
    ensures var (row', phase) := After(row, answer);
      && (phase == Holding || phase == Ending) && row'.intent == row.intent
      && (phase == Holding <==> answer.Some? && answer.value.Recorded?)
      && row'.drain == (if phase == Holding then DrainUnknown else row.drain)
      && (row.state == Unknown ==>
            && (row'.state == Recorded <==> answer.Some? && answer.value.Recorded?)
            && (row'.state == Failed <==> answer.Some? && !answer.value.Recorded? && answer.value != R.Uncertain))
  {
  }

  /** What a receipt says after its worker's answer: recorded exactly if the worker
      said so, failed exactly on one of its refusals. */
  predicate Tells(row: Row, answer: Option<R.Answer>) {
    && (row.state == Recorded <==> answer.Some? && answer.value.Recorded?)
    && (row.state == Failed <==> answer.Some? && !answer.value.Recorded? && answer.value != R.Uncertain)
  }

  /** The worker's answer to an intent, as far as the host API hears it. */
  function Heard(files: map<string, R.Files>, i: Intent, ran: bool, env: R.Env, delivered: bool): Option<R.Answer> {
    if delivered then Some(Worked(FilesOf(files, i.agent), i, ran, env).1) else None
  }

  /** What an exit says: nothing known, success exactly for zero, or failure. */
  function Exit(code: Option<int>): ActionState {
    match code
    case None => ActionUnknown
    case Some(c) => if c == 0 then Succeeded else ActionFailed
  }

  class Service {
    var actions: map<string, ActionRow>
    var decisions: map<string, Row>
    var actionLocked: bool
    var threads: map<nat, Thread>
    var files: map<string, R.Files>
    var acted: seq<string>
    var dispatched: seq<string>
    ghost var published: set<string>
    ghost var synced: set<string>
    ghost var lost: bool

    ghost function View(): World
      reads this
    {
      World(actions, decisions, actionLocked, threads, files, acted, dispatched, published, synced, lost)
    }

    /** Under the receipt lock: answer from the receipt, or persist uncertainty and
        take the action lock. */
    method BeginAction(thread: nat, rid: string, agent: string, action: string, insert: Fate) returns (r: Result<ActionRow, nat>, started: bool)
      requires thread !in threads
      modifies this
      ensures View() == Apply(old(View()), StartAction(thread, rid, agent, action, insert))
      ensures started <==> thread in threads
      ensures started ==> threads == old(threads)[thread := Acting(rid, ActionRow(agent, action, ActionUnknown), false)]
      ensures rid in old(actions) ==> !started && r == ReplayAction(old(View()), rid, agent, action)
      ensures rid !in old(actions) ==>
        && (started <==> |old(actions)| < MAX_RECEIPTS && !old(actionLocked) && insert == Synced)
        && r == Err(if |old(actions)| < MAX_RECEIPTS && old(actionLocked) then 409 else 503)
      ensures r.Ok? ==> rid in actions && actions[rid] == r.value
    {
      started := false;
      if rid in actions {
        r := if actions[rid].agent == agent && actions[rid].action == action then Ok(actions[rid]) else Err(409);
        return;
      }
      if |actions| >= MAX_RECEIPTS {
        return Err(503), false;
      }
      if actionLocked {
        return Err(409), false;
      }
      var row := ActionRow(agent, action, ActionUnknown);
      r := Err(503);
      if insert != Kept {
        actions := actions[rid := row];
      }
      if insert == Synced {
        actionLocked, threads, started := true, threads[thread := Acting(rid, row, false)], true;
      }
    }

    method RunSystemctl(thread: nat, code: Option<int>)
      requires thread in threads && threads[thread].Acting? && !threads[thread].ran
      modifies this
      ensures View() == Apply(old(View()), RunAction(thread, code))
      ensures var th := old(threads[thread]);
        threads == old(threads)[thread := Acting(th.rid, th.acting.(state := Exit(code)), true)]
    {
      var th := threads[thread];
      var row := th.acting;
      if code.Some? {
        row := row.(state := if code.value == 0 then Succeeded else ActionFailed);
      } else {
        row := row.(state := ActionUnknown);
      }
      threads, acted := threads[thread := Acting(th.rid, row, true)], acted + [th.rid];
    }

    method FinishAction(thread: nat, update: Fate)
      requires thread in threads && threads[thread].Acting? && threads[thread].ran
      modifies this
      ensures View() == Apply(old(View()), EndAction(thread, update))
      ensures update != Kept ==> actions == old(actions)[old(threads[thread]).rid := old(threads[thread]).acting]
    {
      var th := threads[thread];
      if update != Kept {
        actions := actions[th.rid := th.acting];
      }
      actionLocked, threads := false, threads - {thread};
    }

    /** One host action, from start to end. */
    method Action(thread: nat, rid: string, agent: string, action: string, insert: Fate, code: Option<int>, update: Fate)
      returns (r: Result<ActionRow, nat>)
      requires thread !in threads
      modifies this
      ensures View() == Apply(Apply(Apply(old(View()), StartAction(thread, rid, agent, action, insert)), RunAction(thread, code)),
                              EndAction(thread, update))
      ensures rid in old(actions) ==> r == ReplayAction(old(View()), rid, agent, action)
      ensures rid !in old(actions) ==>
        && (r.Ok? <==> |old(actions)| < MAX_RECEIPTS && !old(actionLocked) && insert == Synced && update == Synced)
        && (r.Ok? ==> r.value == ActionRow(agent, action, Exit(code)))
        && (r.Err? ==> r.error == if |old(actions)| < MAX_RECEIPTS && old(actionLocked) then 409 else 503)
      ensures r.Ok? ==> rid in actions && actions[rid] == r.value
    {
      var started;
      r, started := BeginAction(thread, rid, agent, action, insert);
      if !started {
        NoThread(View(), RunAction(thread, code));
        NoThread(View(), EndAction(thread, update));
        return;
      }
      RunSystemctl(thread, code);
      r := if update == Synced then Ok(threads[thread].acting) else Err(503);
      FinishAction(thread, update);
    }

    method BeginDecision(thread: nat, rid: string, intent: Intent, insert: Fate) returns (r: Result<Row, nat>, started: bool)
      requires thread !in threads
      modifies this
      ensures View() == Apply(old(View()), StartDecision(thread, rid, intent, insert))
      ensures started <==> thread in threads
      ensures started ==> threads == old(threads)[thread := Deciding(rid, Row(intent, Unknown, NotRequested), Inserted)]
      ensures files == old(files)
      ensures rid in old(decisions) ==> !started && r == ReplayDecision(old(View()), rid, intent)
      ensures rid !in old(decisions) ==>
        && (started <==> |old(decisions)| < MAX_RECEIPTS && !old(actionLocked) && insert == Synced)
        && r == Err(if |old(decisions)| < MAX_RECEIPTS && old(actionLocked) then 409 else 503)
      ensures r.Ok? ==> rid in decisions && decisions[rid] == r.value
    {
      started := false;
      if rid in decisions {
        r := if decisions[rid].intent == intent then Ok(decisions[rid]) else Err(409);
        return;
      }
      if |decisions| >= MAX_RECEIPTS {
        return Err(503), false;
      }
      if actionLocked {
        return Err(409), false;
      }
      var row := Row(intent, Unknown, NotRequested);
      r := Err(503);
      if insert != Kept {
        decisions := decisions[rid := row];
      }
      if insert == Synced {
        actionLocked, threads, started := true, threads[thread := Deciding(rid, row, Inserted)], true;
      }
    }

    /** Run the worker and classify its exit. */
    method RunWorker(thread: nat, ran: bool, env: R.Env, delivered: bool)
      requires thread in threads && threads[thread].Deciding? && threads[thread].phase == Inserted
      modifies this
      ensures View() == Apply(old(View()), RunDecision(thread, ran, env, delivered))
      ensures thread in threads && threads[thread].Deciding? && (threads[thread].phase == Holding || threads[thread].phase == Ending)
      ensures threads[thread].rid == old(threads[thread]).rid
      ensures var th, row := old(threads[thread]), threads[thread].row;
        && row.intent == th.row.intent && row.drain == (if threads[thread].phase == Holding then DrainUnknown else th.row.drain)
        && (th.row.state == Unknown ==>
              && Tells(row, Heard(old(files), row.intent, ran, env, delivered))
              && (threads[thread].phase == Holding <==> row.state == Recorded))
    {
      hide Apply, Worked, After;
      var th := threads[thread];
      var i := th.row.intent;
      RunIsDispatch(View(), thread, ran, env, delivered);
      var before := if i.agent in files then files[i.agent] else NO_FILES;
      var (after, answer) := Worked(before, i, ran, env);
      var (row, phase) := After(th.row, if delivered then Some(answer) else None);
      AfterWorker(th.row, if delivered then Some(answer) else None);
      published := if after.decisions != before.decisions then published + {th.rid} else published;
      synced := if phase == Holding && i.job in after.durable then synced + {th.rid} else synced;
      files, dispatched, threads := files[i.agent := after], dispatched + [th.rid], threads[thread := Deciding(th.rid, row, phase)];
    }

    /** Commit a recorded decision before anything is scheduled. */
    method Commit(thread: nat, update: Fate)
      requires thread in threads && threads[thread].Deciding? && threads[thread].phase == Holding
      modifies this
      ensures View() == Apply(old(View()), CommitDecision(thread, update))
      ensures update == Synced ==> thread in threads && threads[thread] == old(threads[thread]).(phase := Committed)
      ensures update != Synced ==> thread !in threads
    {
      var th := threads[thread];
      if update != Kept {
        decisions := decisions[th.rid := th.row];
      }
      if update == Synced {
        threads := threads[thread := th.(phase := Committed)];
      } else {
        actionLocked, threads := false, threads - {thread};
      }
    }

    method Schedule(thread: nat, code: Option<int>)
      requires thread in threads && threads[thread].Deciding? && threads[thread].phase == Committed
      modifies this
      ensures View() == Apply(old(View()), ScheduleDrain(thread, code))
      ensures thread in threads && threads[thread].Deciding? && threads[thread].phase == Ending && threads[thread].rid == old(threads[thread]).rid
    {
      var th := threads[thread];
      var row := if code == Some(0) then th.row.(drain := Queued) else th.row;
      threads := threads[thread := Deciding(th.rid, row, Ending)];
    }

    method FinishDecision(thread: nat, update: Fate)
      requires thread in threads && threads[thread].Deciding? && threads[thread].phase == Ending
      modifies this
      ensures View() == Apply(old(View()), EndDecision(thread, update))
      ensures update != Kept ==> decisions == old(decisions)[old(threads[thread]).rid := old(threads[thread]).row]
    {
      var th := threads[thread];
      if update != Kept {
        decisions := decisions[th.rid := th.row];
      }
      actionLocked, threads := false, threads - {thread};
    }

    /** What follows the worker's exit: commit and schedule if it recorded the
        decision, and the last update. */
    method Conclude(thread: nat, commit: Fate, code: Option<int>, update: Fate) returns (r: Result<Row, nat>)
      requires thread in threads && threads[thread].Deciding? && (threads[thread].phase == Holding || threads[thread].phase == Ending)
      modifies this
      ensures View() == Apply(Apply(Apply(old(View()), CommitDecision(thread, commit)), ScheduleDrain(thread, code)), EndDecision(thread, update))
      ensures r.Ok? ==> var rid := old(threads[thread]).rid; rid in decisions && decisions[rid] == r.value
      ensures var th := old(threads[thread]);
        && (r.Ok? <==> update == Synced && (th.phase == Holding ==> commit == Synced)) && (r.Err? ==> r.error == 503)
        && (r.Ok? ==> r.value == if th.phase == Holding && code == Some(0) then th.row.(drain := Queued) else th.row)
    {
      if threads[thread].phase == Holding {
        Commit(thread, commit);
        if commit != Synced {
          NoThread(View(), ScheduleDrain(thread, code));
          NoThread(View(), EndDecision(thread, update));
          return Err(503);
        }
        Schedule(thread, code);
      }
      r := if update == Synced then Ok(threads[thread].row) else Err(503);
      FinishDecision(thread, update);
    }

    /** One worker decision, from start to end. */
    method ToolDecision(thread: nat, rid: string, intent: Intent, insert: Fate, ran: bool, env: R.Env, delivered: bool,
                        commit: Fate, code: Option<int>, update: Fate)
      returns (r: Result<Row, nat>)
      requires thread !in threads
      modifies this
      ensures rid in old(decisions) ==> r == ReplayDecision(old(View()), rid, intent)
      ensures r.Ok? ==> rid in decisions && decisions[rid] == r.value
      ensures rid !in old(decisions) ==>
        var heard := Heard(old(files), intent, ran, env, delivered);
        && (r.Ok? <==> && |old(decisions)| < MAX_RECEIPTS && !old(actionLocked) && insert == Synced && update == Synced
                       && (heard.Some? && heard.value.Recorded? ==> commit == Synced))
        && (r.Ok? ==>
              && r.value.intent == intent && Tells(r.value, heard)
              && r.value.drain == if r.value.state != Recorded then NotRequested else if code == Some(0) then Queued else DrainUnknown)
        && (r.Err? ==> r.error == if |old(decisions)| < MAX_RECEIPTS && old(actionLocked) then 409 else 503)
      ensures var begun := Apply(old(View()), StartDecision(thread, rid, intent, insert));
        View() == if thread !in begun.threads then begun
                  else Apply(Apply(Apply(Apply(begun, RunDecision(thread, ran, env, delivered)), CommitDecision(thread, commit)),
                                   ScheduleDrain(thread, code)), EndDecision(thread, update))
    {
      hide Apply, Worked;
      var started;
      r, started := BeginDecision(thread, rid, intent, insert);
      if started {
        RunWorker(thread, ran, env, delivered);
        r := Conclude(thread, commit, code, update);
      }
    }
  }
}
