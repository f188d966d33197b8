/** The host API's receipts: each request id reaches systemctl or the worker at
    most once, under any interleaving of request threads and across restarts. */
module HostApi {
  import opened Wrappers
  import R = Review

  const MAX_RECEIPTS := 10000

  // The receipt tables.

  datatype ActionState = ActionUnknown | Succeeded | ActionFailed

  datatype ActionRow = ActionRow(agent: string, action: string, state: ActionState)

  datatype Intent = Intent(agent: string, job: string, receipt: R.Receipt)

  datatype DecisionState = Unknown | Failed | Recorded

  datatype Drain = NotRequested | DrainUnknown | Queued

  datatype Row = Row(intent: Intent, state: DecisionState, drain: Drain)

  /** A request thread that holds the action lock, and where it stands. */
  datatype Thread =
    | Acting(rid: string, acting: ActionRow, ran: bool)
    | Deciding(rid: string, row: Row, phase: Phase)

  /** Inserted; recorded in memory only; recorded in the table; ready for the last
      update. */
  datatype Phase = Inserted | Holding | Committed | Ending

  /** The service and the workers' files, then what an outside observer remembers:
      which ids reached systemctl, which reached a worker, which of those made the
      worker record a decision, which were answered from a decision on stable
      storage, and whether power was ever lost. */
  datatype World = World(
    actions: map<string, ActionRow>,
    decisions: map<string, Row>,
    locked: bool,
    threads: map<nat, Thread>,
    files: map<string, R.Files>,
    acted: seq<string>,
    dispatched: seq<string>,
    published: set<string>,
    synced: set<string>,
    lost: bool)

  const START: World := World(map[], map[], false, map[], map[], [], [], {}, {}, false)

  const NO_FILES: R.Files := R.Files(false, false, map[], map[])

  function FilesOf(files: map<string, R.Files>, agent: string): R.Files {
    if agent in files then files[agent] else NO_FILES
  }

  datatype Label =
    | StartAction(thread: nat, rid: string, agent: string, action: string, insert: Fate)
    | RunAction(thread: nat, code: Option<int>)
    | EndAction(thread: nat, update: Fate)
    | StartDecision(thread: nat, rid: string, intent: Intent, insert: Fate)
    | RunDecision(thread: nat, ran: bool, env: R.Env, delivered: bool)
    | CommitDecision(thread: nat, update: Fate)
    | ScheduleDrain(thread: nat, code: Option<int>)
    | EndDecision(thread: nat, update: Fate)
    | Reviewing(agent: string, job: string, receipt: R.Receipt, env: R.Env)
    | Syncing(agent: string)
    | Restarting
    | LosingPower

  // An insert or update of a receipt may fail without effect, take effect and
  // still raise, or succeed.

  // The steps, each under the receipt lock or alone with its own row.

  /** Insert the receipt, uncertain before anything runs, and go on holding the
      action lock; a failed insert releases it again. */
  function Insert(w: World, l: Label): World
    requires l.StartAction? || l.StartDecision?
  {
    if l.StartAction? then
      var row := ActionRow(l.agent, l.action, ActionUnknown);
      if l.insert == Kept then w
      else if l.insert == Unsynced then w.(actions := w.actions[l.rid := row])
      else w.(actions := w.actions[l.rid := row], locked := true, threads := w.threads[l.thread := Acting(l.rid, row, false)])
    else
      var row := Row(l.intent, Unknown, NotRequested);
      if l.insert == Kept then w
      else if l.insert == Unsynced then w.(decisions := w.decisions[l.rid := row])
      else w.(decisions := w.decisions[l.rid := row], locked := true, threads := w.threads[l.thread := Deciding(l.rid, row, Inserted)])
  }

  /** Whether a request starts: an id seen before answers from its receipt. */
  predicate Starts(w: World, l: Label)
    requires l.StartAction? || l.StartDecision?
  {
    && l.thread !in w.threads && !w.locked
    && (l.StartAction? ==> l.rid !in w.actions && |w.actions| < MAX_RECEIPTS)
    && (l.StartDecision? ==> l.rid !in w.decisions && |w.decisions| < MAX_RECEIPTS)
  }

  function Release(w: World, thread: nat): World {
    w.(locked := false, threads := w.threads - {thread})
  }

  /** What the caller is told about an id: the receipt if the request is the same,
      a conflict if it is not. */
  function ReplayAction(w: World, rid: string, agent: string, action: string): Result<ActionRow, nat>
    requires rid in w.actions
  {
    if w.actions[rid].agent == agent && w.actions[rid].action == action then Ok(w.actions[rid]) else Err(409)
  }

  function ReplayDecision(w: World, rid: string, intent: Intent): Result<Row, nat>
    requires rid in w.decisions
  {
    if w.decisions[rid].intent == intent then Ok(w.decisions[rid]) else Err(409)
  }

  /** The worker's exit: only its explicit refusals prove that nothing was
      recorded. */
  function After(row: Row, answer: Option<R.Answer>): (Row, Phase) {
    if answer.None? then (row, Ending)
    else
      match answer.value
      case Recorded(_) => (row.(state := Recorded, drain := DrainUnknown), Holding)
      case Uncertain => (row, Ending)
      case _ => (row.(state := Failed), Ending)
  }

  /** The worker's run on its own files; one that finds them busy changes nothing. */
  function Worked(before: R.Files, i: Intent, ran: bool, env: R.Env): (R.Files, R.Answer) {
    if ran then R.Decide(before, i.job, i.receipt, env) else (before, R.Conflict)
  }

  /** Dispatch to the worker. The process may not run, and its answer may be lost. */
  function Dispatch(w: World, t: nat, ran: bool, env: R.Env, delivered: bool): World
    requires t in w.threads && w.threads[t].Deciding?
  {
    var th := w.threads[t];
    var i := th.row.intent;
    var before := FilesOf(w.files, i.agent);
    var (files, answer) := Worked(before, i, ran, env);
    var (row, phase) := After(th.row, if delivered then Some(answer) else None);
    w.(files := w.files[i.agent := files],
       threads := w.threads[t := Deciding(th.rid, row, phase)],
       dispatched := w.dispatched + [th.rid],
       published := if files.decisions != before.decisions then w.published + {th.rid} else w.published,
       synced := if phase == Holding && i.job in files.durable then w.synced + {th.rid} else w.synced)
  }

  function ApplyAction(w: World, l: Label, th: Thread): World
    requires th.Acting? && (l.RunAction? || l.EndAction?) && l.thread in w.threads
  {
    match l
    case RunAction(t, code) =>
      if th.ran then w
      else
        var state := if code.None? then ActionUnknown else if code.value == 0 then Succeeded else ActionFailed;
        w.(threads := w.threads[t := Acting(th.rid, th.acting.(state := state), true)], acted := w.acted + [th.rid])
    case EndAction(t, update) =>
      if !th.ran then w
      else Release(if update == Kept then w else w.(actions := w.actions[th.rid := th.acting]), t)
  }

  function ApplyDecision(w: World, l: Label, th: Thread): World
    requires th.Deciding? && (l.RunDecision? || l.CommitDecision? || l.ScheduleDrain? || l.EndDecision?)
    requires l.thread in w.threads && w.threads[l.thread] == th
  {
    match l
    case RunDecision(t, ran, env, delivered) => if th.phase == Inserted then Dispatch(w, t, ran, env, delivered) else w
    case CommitDecision(t, update) =>
      if th.phase != Holding then w
      else if update == Synced then w.(decisions := w.decisions[th.rid := th.row], threads := w.threads[t := th.(phase := Committed)])
      else Release(if update == Kept then w else w.(decisions := w.decisions[th.rid := th.row]), t)
    case ScheduleDrain(t, code) =>
      if th.phase != Committed then w
      else w.(threads := w.threads[t := Deciding(th.rid, if code == Some(0) then th.row.(drain := Queued) else th.row, Ending)])
    case EndDecision(t, update) =>
      if th.phase != Ending then w
      else Release(if update == Kept then w else w.(decisions := w.decisions[th.rid := th.row]), t)
  }

  /** What a power loss leaves of the workers' files. The receipt tables are synced
      by every statement and stay. */
  function Restored(files: map<string, R.Files>): map<string, R.Files> {
    map agent | agent in files :: files[agent].(marker := files[agent].durableMarker, decisions := files[agent].durable)
  }

  predicate OfAction(l: Label) {
    l.RunAction? || l.EndAction?
  }

  predicate OfDecision(l: Label) {
    l.RunDecision? || l.CommitDecision? || l.ScheduleDrain? || l.EndDecision?
  }

  /** One step; a thread's step at the wrong moment changes nothing. */
  function Apply(w: World, l: Label): World {
    if l.StartAction? || l.StartDecision? then (if Starts(w, l) then Insert(w, l) else w)
    else if l.Reviewing? then w.(files := w.files[l.agent := R.Decide(FilesOf(w.files, l.agent), l.job, l.receipt, l.env).0])
    else if l.Syncing? then
      var f := FilesOf(w.files, l.agent);
      w.(files := w.files[l.agent := f.(durable := f.decisions, durableMarker := f.marker)])
    else if l.Restarting? then w.(locked := false, threads := map[])
    else if l.LosingPower? then w.(locked := false, threads := map[], files := Restored(w.files), lost := true)
    else if l.thread in w.threads && w.threads[l.thread].Acting? && OfAction(l) then ApplyAction(w, l, w.threads[l.thread])
    else if l.thread in w.threads && w.threads[l.thread].Deciding? && OfDecision(l) then ApplyDecision(w, l, w.threads[l.thread])
    else w
  }

  function Run(labels: seq<Label>): World {
    if labels == [] then START else Apply(Run(labels[..|labels| - 1]), labels[|labels| - 1])
  }

  // What every run keeps.

  /** At most one thread holds the action lock. */
  predicate Exclusive(w: World) {
    (w.threads.Keys != {} ==> w.locked) && forall t, u :: t in w.threads && u in w.threads ==> t == u
  }

  /** The worker has recorded what the intent says. */
  predicate HasDecision(files: map<string, R.Files>, i: Intent) {
    i.job in FilesOf(files, i.agent).decisions && FilesOf(files, i.agent).decisions[i.job] == i.receipt
  }

  predicate OnStableStorage(files: map<string, R.Files>, i: Intent) {
    i.job in FilesOf(files, i.agent).durable && FilesOf(files, i.agent).durable[i.job] == i.receipt
  }

  /** A receipt's state is the truth about its dispatch: a failed one recorded
      nothing; a recorded one is held by the worker, on stable storage if it was
      answered from there, and in any case as long as no power is lost. */
  predicate True(w: World, rid: string, row: Row) {
    && (row.state == Failed ==> rid !in w.published)
    && (row.state == Recorded && rid in w.synced ==> OnStableStorage(w.files, row.intent))
    && (row.state == Recorded && !w.lost ==> HasDecision(w.files, row.intent))
  }

  predicate FilesSound(files: map<string, R.Files>) {
    forall agent :: agent in files ==> R.Extends(files[agent].durable, files[agent].decisions)
  }

  predicate ThreadSound(w: World, th: Thread) {
    match th
    case Acting(rid, row, ran) =>
      && rid in w.actions && w.actions[rid].agent == row.agent && w.actions[rid].action == row.action
      && (!ran ==> rid !in w.acted)
    case Deciding(rid, row, phase) =>
      && rid in w.decisions && w.decisions[rid].intent == row.intent && w.decisions[rid].state != Failed
      && (w.decisions[rid].state == Recorded ==> row.state == Recorded) && True(w, rid, row)
      && (phase == Inserted ==> rid !in w.dispatched && rid !in w.published && rid !in w.synced && row.state == Unknown)
      && (phase == Holding || phase == Committed ==> row.state == Recorded)
  }

  predicate Distinct(ids: seq<string>) {
    forall i, j :: 0 <= i < j < |ids| ==> ids[i] != ids[j]
  }

  predicate LogsSound(w: World) {
    && Distinct(w.acted) && (forall rid :: rid in w.acted ==> rid in w.actions)
    && Distinct(w.dispatched) && (forall rid :: rid in w.dispatched ==> rid in w.decisions)
    && (forall rid :: rid in w.published ==> rid in w.dispatched) && (forall rid :: rid in w.synced ==> rid in w.dispatched)
  }

  predicate RowsSound(w: World) {
    forall rid :: rid in w.decisions ==> True(w, rid, w.decisions[rid])
  }

  predicate Sound(w: World) {
    && Exclusive(w) && LogsSound(w) && RowsSound(w) && FilesSound(w.files)
    && forall t :: t in w.threads ==> ThreadSound(w, w.threads[t])
  }

  lemma DecideGrows(f: R.Files, job: string, r: R.Receipt, env: R.Env)
    requires R.Extends(f.durable, f.decisions)
    ensures var (f', a) := R.Decide(f, job, r, env);
      && R.Extends(f.decisions, f'.decisions) && R.Extends(f.durable, f'.durable) && R.Extends(f'.durable, f'.decisions)
      && (a.Recorded? ==> job in f'.decisions && f'.decisions[job] == r)
      && (!a.Recorded? && a != R.Uncertain ==> f' == f)
  {
  }

  /** Changes to the workers' files that only add. */
  ghost predicate FilesGrow(files: map<string, R.Files>, files': map<string, R.Files>) {
    && FilesSound(files')
    && forall i ::
         && (HasDecision(files, i) ==> HasDecision(files', i))
         && (OnStableStorage(files, i) ==> OnStableStorage(files', i))
  }

  lemma GrownSound(w: World, files: map<string, R.Files>)
    requires Sound(w) && FilesGrow(w.files, files)
    ensures Sound(w.(files := files))
  {
  }

  lemma StartActionSound(w: World, l: Label)
    requires Sound(w) && l.StartAction? && Starts(w, l)
    ensures Sound(Insert(w, l))
  {
    hide HasDecision, OnStableStorage, FilesSound;
    assert w.threads.Keys == {};
  }

  lemma NewRowSound(w: World, rid: string, row: Row)
    requires Sound(w) && rid !in w.decisions && w.threads == map[] && row.state == Unknown
    ensures Sound(w.(decisions := w.decisions[rid := row]))
  {
    hide HasDecision, OnStableStorage, FilesSound;
  }

  lemma NewThreadSound(w: World, t: nat, rid: string)
    requires Sound(w) && w.threads == map[] && rid in w.decisions && rid !in w.dispatched && w.decisions[rid].state == Unknown
    ensures Sound(w.(locked := true, threads := w.threads[t := Deciding(rid, w.decisions[rid], Inserted)]))
  {
    hide HasDecision, OnStableStorage, FilesSound;
  }

  lemma StartDecisionSound(w: World, l: Label)
    requires Sound(w) && l.StartDecision? && Starts(w, l)
    ensures Sound(Insert(w, l))
  {
    assert w.threads.Keys == {};
    var row := Row(l.intent, Unknown, NotRequested);
    NewRowSound(w, l.rid, row);
    NewThreadSound(w.(decisions := w.decisions[l.rid := row]), l.thread, l.rid);
  }

  lemma SetFilesGrow(files: map<string, R.Files>, agent: string, f: R.Files)
    requires FilesSound(files) && R.Extends(FilesOf(files, agent).decisions, f.decisions)
    requires R.Extends(FilesOf(files, agent).durable, f.durable) && R.Extends(f.durable, f.decisions)
    ensures FilesGrow(files, files[agent := f])
  {
  }

  lemma ReviewingSound(w: World, agent: string, job: string, r: R.Receipt, env: R.Env)
    requires Sound(w)
    ensures Sound(w.(files := w.files[agent := R.Decide(FilesOf(w.files, agent), job, r, env).0]))
  {
    DecideGrows(FilesOf(w.files, agent), job, r, env);
    SetFilesGrow(w.files, agent, R.Decide(FilesOf(w.files, agent), job, r, env).0);
    GrownSound(w, w.files[agent := R.Decide(FilesOf(w.files, agent), job, r, env).0]);
  }

  lemma SyncingSound(w: World, agent: string)
    requires Sound(w)
    ensures Sound(Apply(w, Syncing(agent)))
  {
    var f := FilesOf(w.files, agent);
    var f' := f.(durable := f.decisions, durableMarker := f.marker);
    SetFilesGrow(w.files, agent, f');
    GrownSound(w, w.files[agent := f']);
  }

  lemma LosingPowerSound(w: World)
    requires Sound(w)
    ensures Sound(Apply(w, LosingPower))
  {
    var w' := Apply(w, LosingPower);
    forall i: Intent
      ensures OnStableStorage(w.files, i) <==> OnStableStorage(w'.files, i)
    {
    }
  }

  lemma ActionSound(w: World, l: Label)
    requires Sound(w) && (l.RunAction? || l.EndAction?) && l.thread in w.threads && w.threads[l.thread].Acting?
    ensures Sound(ApplyAction(w, l, w.threads[l.thread]))
  {
    hide HasDecision, OnStableStorage, FilesSound;
  }

  /** The dispatch itself, once the files have grown. */
  lemma AnsweredSound(w: World, t: nat, row: Row, phase: Phase, published: bool, synced: bool)
    requires Sound(w) && t in w.threads && w.threads[t].Deciding? && w.threads[t].phase == Inserted
    requires row.intent == w.threads[t].row.intent && phase != Inserted && (phase == Committed || phase == Holding ==> row.state == Recorded)
    requires row.state == Failed ==> !published
    requires row.state == Recorded ==> HasDecision(w.files, row.intent) && (synced ==> OnStableStorage(w.files, row.intent))
    ensures var rid := w.threads[t].rid;
      Sound(w.(threads := w.threads[t := Deciding(rid, row, phase)], dispatched := w.dispatched + [rid],
               published := if published then w.published + {rid} else w.published,
               synced := if synced then w.synced + {rid} else w.synced))
  {
    assert ThreadSound(w, w.threads[t]);
  }

  lemma DispatchSound(w: World, t: nat, ran: bool, env: R.Env, delivered: bool)
    requires Sound(w) && t in w.threads && w.threads[t].Deciding? && w.threads[t].phase == Inserted
    ensures Sound(Dispatch(w, t, ran, env, delivered))
  {
    var th := w.threads[t];
    var i := th.row.intent;
    var before := FilesOf(w.files, i.agent);
    var (files, answer) := Worked(before, i, ran, env);
    var (row, phase) := After(th.row, if delivered then Some(answer) else None);
    assert ThreadSound(w, th);
    DecideGrows(before, i.job, i.receipt, env);
    SetFilesGrow(w.files, i.agent, files);
    var w1 := w.(files := w.files[i.agent := files]);
    GrownSound(w, w1.files);
    AnsweredSound(w1, t, row, phase, files.decisions != before.decisions, phase == Holding && i.job in files.durable);
  }

  lemma UpdateSound(w: World, t: nat)
    requires Sound(w) && t in w.threads && w.threads[t].Deciding?
    ensures var th := w.threads[t]; Sound(Release(w.(decisions := w.decisions[th.rid := th.row]), t))
  {
    hide HasDecision, OnStableStorage, FilesSound;
    assert ThreadSound(w, w.threads[t]);
  }

  lemma ReleaseSound(w: World, t: nat)
    requires Sound(w) && t in w.threads
    ensures Sound(Release(w, t))
  {
    hide HasDecision, OnStableStorage, FilesSound;
  }

  lemma CommitSound(w: World, t: nat)
    requires Sound(w) && t in w.threads && w.threads[t].Deciding? && w.threads[t].phase == Holding
    ensures var th := w.threads[t];
      Sound(w.(decisions := w.decisions[th.rid := th.row], threads := w.threads[t := th.(phase := Committed)]))
  {
    hide HasDecision, OnStableStorage, FilesSound;
    assert ThreadSound(w, w.threads[t]);
  }

  lemma ScheduleSound(w: World, t: nat, row: Row)
    requires Sound(w) && t in w.threads && w.threads[t].Deciding? && w.threads[t].phase == Committed
    requires row == w.threads[t].row.(drain := row.drain)
    ensures Sound(w.(threads := w.threads[t := Deciding(w.threads[t].rid, row, Ending)]))
  {
    hide HasDecision, OnStableStorage, FilesSound;
    assert ThreadSound(w, w.threads[t]);
  }

  lemma DecisionSound(w: World, l: Label)
    requires Sound(w) && (l.CommitDecision? || l.ScheduleDrain? || l.EndDecision?)
    requires l.thread in w.threads && w.threads[l.thread].Deciding?
    ensures Sound(ApplyDecision(w, l, w.threads[l.thread]))
  {
    hide Sound, Release;
    var th := w.threads[l.thread];
    if l.CommitDecision? && th.phase == Holding {
      CommitSound(w, l.thread);
      UpdateSound(w, l.thread);
      ReleaseSound(w, l.thread);
    } else if l.ScheduleDrain? && th.phase == Committed {
      ScheduleSound(w, l.thread, if l.code == Some(0) then th.row.(drain := Queued) else th.row);
    } else if l.EndDecision? {
      UpdateSound(w, l.thread);
      ReleaseSound(w, l.thread);
    }
  }

  lemma StepSound(w: World, l: Label)
    requires Sound(w)
    ensures Sound(Apply(w, l))
  {
    if l.StartAction? {
      if Starts(w, l) {
        StartActionSound(w, l);
      }
    } else if l.StartDecision? {
      if Starts(w, l) {
        StartDecisionSound(w, l);
      }
    } else if l.Reviewing? {
      ReviewingSound(w, l.agent, l.job, l.receipt, l.env);
    } else if l.Syncing? {
      SyncingSound(w, l.agent);
    } else if l.LosingPower? {
      LosingPowerSound(w);
    } else if !l.Restarting? && l.thread in w.threads {
      if w.threads[l.thread].Acting? && OfAction(l) {
        ActionSound(w, l);
      } else if w.threads[l.thread].Deciding? && l.RunDecision? && w.threads[l.thread].phase == Inserted {
        DispatchSound(w, l.thread, l.ran, l.env, l.delivered);
      } else if w.threads[l.thread].Deciding? && OfDecision(l) && !l.RunDecision? {
        DecisionSound(w, l);
      }
    }
  }

  lemma {:induction false} RunSound(labels: seq<Label>)
    ensures Sound(Run(labels))
  {
    if labels != [] {
      RunSound(labels[..|labels| - 1]);
      StepSound(Run(labels[..|labels| - 1]), labels[|labels| - 1]);
    }
  }
}
