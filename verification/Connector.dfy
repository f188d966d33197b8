/** The read-only connector: credentials leased under an epoch, reads that hold a
    slot while they are in flight, and output written only while the lease of the
    accepted request is still installed. Threads interleave at every atomic step;
    a rotation is two of them, because the epoch is read without the lease lock. */
module Connector {
  import opened Wrappers

  const EPOCHS: nat := U64_MAX + 1

  datatype Lease = Lease(token: string, epoch: U64, expires: nat)

  /** What a rotation or revocation is about to install, while it holds the lock. */
  datatype Change = Rotate(token: string, epoch: Option<U64>, expires: nat) | Revoke

  datatype Credential = Credential(token: string, epoch: U64)

  datatype Phase =
    | Accepted                          // the connection has read the epoch
    | Admitted                          // a slot is held
    | Loaded(credential: Credential)    // the lease was copied
    | Fetched(credential: Credential)   // the provider has answered
    | Read(credential: Credential)      // validated; the slot is released
    | Ready(credential: Credential)     // validated again by the tool call
    | Checked(credential: Credential)   // the next write may happen

  /** A tool call: how many changes had happened when it was accepted, the epoch it
      read then, the one its dispatch read, and where it stands. */
  datatype Call = Call(acceptedAt: nat, epoch: U64, snapshot: Option<U64>, phase: Phase)

  /** A write of provider output: the call's acceptance, the moment of the check
      before it, the token that fetched the output and the lease installed at the
      check. */
  datatype Write = Write(acceptedAt: nat, checkedAt: nat, token: string, installed: Option<Lease>)

  datatype World = World(
    epoch: U64,
    lease: Option<Lease>,
    holder: Option<Change>,
    granted: bool,
    active: nat,
    calls: map<nat, Call>,
    changes: nat,
    checks: map<nat, (nat, Option<Lease>)>,
    writes: seq<Write>)

  const START: World := World(0, None, None, true, 0, map[], 0, map[], [])

  datatype Label =
    | Accepting(id: nat)
    | Snapshotting(id: nat)
    | Admitting(id: nat)
    | Loading(id: nat, now: nat)
    | Fetching(id: nat)
    | Validating(id: nat, now: nat)
    | Revalidating(id: nat, now: nat)
    | Checking(id: nat, now: nat)
    | Writing(id: nat)
    | Ending(id: nat)
    | Bumping(token: Option<string>, expires: nat)
    | Installing
    | RevokingGrant

  // The credential lease.

  /** The first half of a rotation or revocation: take the lock, move the epoch.
      The counter wraps; a rotation that would reuse it installs nothing. */
  function Bump(w: World, token: Option<string>, expires: nat): World {
    var next := (w.epoch + 1) % EPOCHS;
    w.(epoch := next, changes := w.changes + 1,
       holder := Some(if token.None? then Revoke
                      else Rotate(token.value, if w.epoch + 1 < EPOCHS then Some(w.epoch + 1) else None, expires)))
  }

  /** The second half: install, and release the lock. */
  function Install(w: World, change: Change): World {
    match change
    case Revoke => w.(lease := None, holder := None)
    case Rotate(token, Some(epoch), expires) => w.(lease := Some(Lease(token, epoch, expires)), holder := None)
    case Rotate(_, None, _) => w.(holder := None)
  }

  /** Whether the lease of `epoch` is installed and current. */
  predicate Valid(lease: Option<Lease>, epoch: U64, now: nat) {
    lease.Some? && lease.value.epoch == epoch && now < lease.value.expires
  }

  // One call.

  predicate HoldsSlot(p: Phase) {
    p.Admitted? || p.Loaded? || p.Fetched?
  }

  /** A slot given back; the counter would wrap below zero. */
  function Dropped(active: nat): nat {
    if active > 0 then active - 1 else U64_MAX
  }

  function Step(w: World, id: nat, phase: Phase): World
    requires id in w.calls
  {
    w.(calls := w.calls[id := w.calls[id].(phase := phase)])
  }

  /** The next atomic step of a call. One that is not due, that the lease lock
      delays or that a check refuses changes nothing here; refusal ends the call. */
  function ApplyCall(max: nat, w: World, l: Label, c: Call): World
    requires l.Snapshotting? || l.Admitting? || l.Loading? || l.Fetching? || l.Validating? || l.Revalidating? || l.Checking? || l.Writing?
    requires l.id in w.calls && w.calls[l.id] == c
  {
    match l
    case Snapshotting(id) =>
      if c.phase == Accepted && c.snapshot.None? then w.(calls := w.calls[id := c.(snapshot := Some(w.epoch))]) else w
    case Admitting(id) =>
      if c.phase == Accepted && c.snapshot.Some? && w.granted && w.active < max then
        Step(w, id, Admitted).(active := w.active + 1)
      else w
    case Loading(id, now) =>
      if c.phase == Admitted && w.holder.None? && w.lease.Some? && now < w.lease.value.expires then
        Step(w, id, Loaded(Credential(w.lease.value.token, w.lease.value.epoch)))
      else w
    case Fetching(id) => if c.phase.Loaded? && w.granted then Step(w, id, Fetched(c.phase.credential)) else w
    case Validating(id, now) =>
      if c.phase.Fetched? && w.granted && w.holder.None? && Valid(w.lease, c.phase.credential.epoch, now) then
        Step(w, id, Read(c.phase.credential)).(active := Dropped(w.active))
      else w
    case Revalidating(id, now) =>
      if c.phase.Read? && w.granted && w.holder.None? && c.snapshot.Some? && Valid(w.lease, c.snapshot.value, now) then
        Step(w, id, Ready(c.phase.credential))
      else w
    case Checking(id, now) =>
      if c.phase.Ready? && w.holder.None? && Valid(w.lease, c.epoch, now) then
        Step(w, id, Checked(c.phase.credential)).(checks := w.checks[id := (w.changes, w.lease)])
      else w
    case Writing(id) =>
      if c.phase.Checked? && id in w.checks then
        Step(w, id, Ready(c.phase.credential))
          .(writes := w.writes + [Write(c.acceptedAt, w.checks[id].0, c.phase.credential.token, w.checks[id].1)])
      else w
  }

  function Apply(max: nat, w: World, l: Label): World {
    if l.Bumping? then (if w.holder.None? then Bump(w, l.token, l.expires) else w)
    else if l.Installing? then (if w.holder.Some? then Install(w, w.holder.value) else w)
    else if l.RevokingGrant? then w.(granted := false)
    else if l.Accepting? then
      (if l.id in w.calls then w else w.(calls := w.calls[l.id := Call(w.changes, w.epoch, None, Accepted)]))
    else if l.id !in w.calls then w
    else if l.Ending? then
      w.(calls := w.calls - {l.id},
         active := if HoldsSlot(w.calls[l.id].phase) then Dropped(w.active) else w.active)
    else ApplyCall(max, w, l, w.calls[l.id])
  }

  function Run(max: nat, labels: seq<Label>): World {
    if labels == [] then START else Apply(max, Run(max, labels[..|labels| - 1]), labels[|labels| - 1])
  }

  // What every run keeps.

  function InFlight(calls: map<nat, Call>): set<nat> {
    set id | id in calls && HoldsSlot(calls[id].phase)
  }

  /** The slots taken are those of the calls in flight. */
  predicate Counted(max: nat, w: World) {
    w.active == |InFlight(w.calls)| && w.active <= max
  }

  lemma InFlightChange(calls: map<nat, Call>, id: nat, c: Call)
    ensures HoldsSlot(c.phase) ==> InFlight(calls[id := c]) == InFlight(calls) + {id}
    ensures !HoldsSlot(c.phase) ==> InFlight(calls[id := c]) == InFlight(calls) - {id}
    ensures InFlight(calls - {id}) == InFlight(calls) - {id}
  {
  }

  /** A step of one call moves the counter with the slot it takes or gives back. */
  predicate Moves(max: nat, w: World, w': World, id: nat)
    requires id in w.calls
  {
    && id in w'.calls && w'.calls == w.calls[id := w'.calls[id]]
    && var before, after := HoldsSlot(w.calls[id].phase), HoldsSlot(w'.calls[id].phase);
       if !before && after then w'.active == w.active + 1 <= max
       else if before && !after then w'.active == Dropped(w.active)
       else w'.active == w.active
  }

  lemma CallMoves(max: nat, w: World, l: Label, c: Call)
    requires l.Snapshotting? || l.Admitting? || l.Loading? || l.Fetching? || l.Validating? || l.Revalidating? || l.Checking? || l.Writing?
    requires l.id in w.calls && w.calls[l.id] == c
    ensures Moves(max, w, ApplyCall(max, w, l, c), l.id)
  {
    assert w.calls == w.calls[l.id := c];
  }

  lemma MovesCounted(max: nat, w: World, w': World, id: nat)
    requires Counted(max, w) && id in w.calls && Moves(max, w, w', id)
    ensures Counted(max, w')
  {
    InFlightChange(w.calls, id, w'.calls[id]);
  }

  lemma AcceptCounted(max: nat, w: World, id: nat, c: Call)
    requires Counted(max, w) && id !in w.calls && !HoldsSlot(c.phase)
    ensures Counted(max, w.(calls := w.calls[id := c]))
  {
    InFlightChange(w.calls, id, c);
    assert InFlight(w.calls) - {id} == InFlight(w.calls);
  }

  lemma EndCounted(max: nat, w: World, id: nat)
    requires Counted(max, w) && id in w.calls
    ensures Counted(max, w.(calls := w.calls - {id}, active := if HoldsSlot(w.calls[id].phase) then Dropped(w.active) else w.active))
  {
    InFlightChange(w.calls, id, w.calls[id]);
    assert !HoldsSlot(w.calls[id].phase) ==> InFlight(w.calls) - {id} == InFlight(w.calls);
  }

  lemma StepCounted(max: nat, w: World, l: Label)
    requires Counted(max, w)
    ensures Counted(max, Apply(max, w, l))
  {
    if l.Accepting? {
      if l.id !in w.calls {
        AcceptCounted(max, w, l.id, Call(w.changes, w.epoch, None, Accepted));
      }
    } else if l.Ending? {
      if l.id in w.calls {
        EndCounted(max, w, l.id);
      }
    } else if !l.Bumping? && !l.Installing? && !l.RevokingGrant? && l.id in w.calls {
      CallMoves(max, w, l, w.calls[l.id]);
      MovesCounted(max, w, Apply(max, w, l), l.id);
    }
  }

  /** The number of reads in flight is what the gateway counts, and never more than
      the grant allows. */
  lemma {:induction false} SlotsAreCounted(max: nat, labels: seq<Label>)
    ensures Run(max, labels).active == |InFlight(Run(max, labels).calls)| <= max
  {
    if labels != [] {
      SlotsAreCounted(max, labels[..|labels| - 1]);
      StepCounted(max, Run(max, labels[..|labels| - 1]), labels[|labels| - 1]);
    }
  }

  // Leases.

  /** As long as the counter has not wrapped, the epoch counts the changes, and an
      installed lease that nobody is changing is the latest. */
  predicate Fresh(w: World) {
    && w.changes < EPOCHS && w.epoch == w.changes
    && (w.holder.None? && w.lease.Some? ==> w.lease.value.epoch == w.epoch)
    && (w.holder.Some? && w.holder.value.Rotate? ==> w.holder.value.epoch == Some(w.epoch))
  }

  predicate HasCredential(p: Phase) {
    p.Loaded? || p.Fetched? || p.Read? || p.Ready? || p.Checked?
  }

  /** A lease was installed once: whoever copied its epoch copied its token. */
  predicate Copied(w: World, acceptedAt: nat, k: Credential) {
    && acceptedAt <= k.epoch <= w.epoch
    && (w.lease.Some? && w.lease.value.epoch == k.epoch ==> w.lease.value.token == k.token)
    && (w.holder.Some? ==> k.epoch < w.epoch)
  }

  predicate CallSound(w: World, c: Call) {
    && c.acceptedAt <= w.changes && c.epoch == c.acceptedAt
    && (HasCredential(c.phase) ==> Copied(w, c.acceptedAt, c.phase.credential))
  }

  /** A check found the lease of the accepted request, and it is the one that
      fetched the output. */
  predicate Confirmed(acceptedAt: nat, token: string, checkedAt: nat, installed: Option<Lease>) {
    checkedAt == acceptedAt && installed.Some? && installed.value.token == token
  }

  predicate ChecksSound(w: World) {
    forall id :: id in w.calls && w.calls[id].phase.Checked? ==>
      id in w.checks && Confirmed(w.calls[id].acceptedAt, w.calls[id].phase.credential.token, w.checks[id].0, w.checks[id].1)
  }

  predicate WritesSound(writes: seq<Write>) {
    forall i :: 0 <= i < |writes| ==> Confirmed(writes[i].acceptedAt, writes[i].token, writes[i].checkedAt, writes[i].installed)
  }

  predicate Sound(w: World) {
    && Fresh(w) && ChecksSound(w) && WritesSound(w.writes)
    && forall id :: id in w.calls ==> CallSound(w, w.calls[id])
  }

  lemma BumpSound(w: World, token: Option<string>, expires: nat)
    requires Sound(w) && w.holder.None? && w.changes + 1 < EPOCHS
    ensures Sound(Bump(w, token, expires))
  {
  }

  lemma InstallSound(w: World)
    requires Sound(w) && w.holder.Some?
    ensures Sound(Install(w, w.holder.value))
  {
  }

  lemma CallStepSound(max: nat, w: World, l: Label)
    requires l.Snapshotting? || l.Admitting? || l.Loading? || l.Fetching? || l.Validating? || l.Revalidating? || l.Writing?
    requires Sound(w) && l.id in w.calls
    ensures Sound(ApplyCall(max, w, l, w.calls[l.id]))
  {
  }

  lemma CheckingSound(max: nat, w: World, l: Label)
    requires l.Checking? && Sound(w) && l.id in w.calls
    ensures Sound(ApplyCall(max, w, l, w.calls[l.id]))
  {
    assert CallSound(w, w.calls[l.id]);
  }

  lemma StepSound(max: nat, w: World, l: Label)
    requires Sound(w) && Apply(max, w, l).changes < EPOCHS
    ensures Sound(Apply(max, w, l))
  {
    if l.Bumping? {
      if w.holder.None? {
        BumpSound(w, l.token, l.expires);
      }
    } else if l.Installing? {
      if w.holder.Some? {
        InstallSound(w);
      }
    } else if l.Accepting? || l.Ending? || l.RevokingGrant? {
    } else if l.id in w.calls {
      if l.Checking? {
        CheckingSound(max, w, l);
      } else {
        CallStepSound(max, w, l);
      }
    }
  }

  lemma ChangesGrow(max: nat, w: World, l: Label)
    ensures w.changes <= Apply(max, w, l).changes
  {
  }

  lemma {:induction false} RunSound(max: nat, labels: seq<Label>)
    requires Run(max, labels).changes < EPOCHS
    ensures Sound(Run(max, labels))
  {
    if labels != [] {
      var before := labels[..|labels| - 1];
      ChangesGrow(max, Run(max, before), labels[|labels| - 1]);
      RunSound(max, before);
      StepSound(max, Run(max, before), labels[|labels| - 1]);
    }
  }

  /** Every write of provider output follows a check at which no rotation or
      revocation had begun since the call was accepted, and the token that fetched
      the output was the one installed: in every run, however long, with fewer
      changes than there are epochs. */
  lemma WritesFollowChecks(max: nat, labels: seq<Label>, i: nat)
    requires Run(max, labels).changes < EPOCHS && i < |Run(max, labels).writes|
    ensures var write := Run(max, labels).writes[i];
      write.checkedAt == write.acceptedAt && write.installed.Some? && write.installed.value.token == write.token
  {
    RunSound(max, labels);
  }

  // The bound is tight: with as many changes as epochs, a check can pass after one.

  function Revocations(n: nat): seq<Label> {
    if n == 0 then [] else Revocations(n - 1) + [Bumping(None, 0), Installing]
  }

  lemma RunMore(max: nat, labels: seq<Label>, l: Label)
    ensures Run(max, labels + [l]) == Apply(max, Run(max, labels), l)
  {
    assert (labels + [l])[..|labels|] == labels;
  }

  function Revoked(w: World, n: nat): World {
    w.(epoch := (w.epoch + n) % EPOCHS, lease := None, changes := w.changes + n)
  }

  lemma RevokeOnce(max: nat, labels: seq<Label>)
    requires Run(max, labels).holder.None?
    ensures Run(max, labels + [Bumping(None, 0), Installing]) == Revoked(Run(max, labels), 1)
  {
    RunMore(max, labels, Bumping(None, 0));
    RunMore(max, labels + [Bumping(None, 0)], Installing);
    assert labels + [Bumping(None, 0)] + [Installing] == labels + [Bumping(None, 0), Installing];
  }

  lemma ModuloStep(e: nat, n: nat)
    ensures ((e + n) % EPOCHS + 1) % EPOCHS == (e + n + 1) % EPOCHS
  {
    var q, r := (e + n) / EPOCHS, (e + n) % EPOCHS;
    assert e + n == q * EPOCHS + r;
    if r + 1 < EPOCHS {
      assert e + n + 1 == q * EPOCHS + (r + 1);
    } else {
      assert e + n + 1 == (q + 1) * EPOCHS;
    }
  }

  lemma RevokedMore(w: World, n: nat)
    ensures Revoked(Revoked(w, n), 1) == Revoked(w, n + 1)
  {
    ModuloStep(w.epoch, n);
  }

  lemma {:induction false} RevokeMany(max: nat, labels: seq<Label>, n: nat)
    requires n > 0 && Run(max, labels).holder.None?
    ensures Run(max, labels + Revocations(n)) == Revoked(Run(max, labels), n)
  {
    var before := labels + Revocations(n - 1);
    assert labels + Revocations(n) == before + [Bumping(None, 0), Installing];
    if n == 1 {
      assert before == labels;
    } else {
      RevokeMany(max, labels, n - 1);
      RevokedMore(Run(max, labels), n - 1);
    }
    RevokeOnce(max, before);
  }

  lemma RunThree(max: nat, labels: seq<Label>, x: Label, y: Label, z: Label)
    ensures Run(max, labels + [x, y, z]) == Apply(max, Apply(max, Apply(max, Run(max, labels), x), y), z)
  {
    RunMore(max, labels, x);
    RunMore(max, labels + [x], y);
    RunMore(max, labels + [x] + [y], z);
    assert labels + [x] + [y] + [z] == labels + [x, y, z];
  }

  /** A rotation, then a call that gets ready to write, in three stretches. */
  const LEASED: seq<Label> := [Bumping(Some("old"), 9), Installing, Accepting(0)]
  const LOADED: seq<Label> := [Snapshotting(0), Admitting(0), Loading(0, 0)]
  const READY: seq<Label> := [Fetching(0), Validating(0, 0), Revalidating(0, 0)]

  predicate Idle(w: World) {
    w.holder.None? && w.granted && w.active == 0 && w.calls == map[] && w.epoch + 1 < EPOCHS
  }

  /** From the idle world `w`, the call of that stretch. */
  function CallFrom(w: World, snapshot: Option<U64>, phase: Phase, active: nat): World
    requires Idle(w)
  {
    w.(epoch := w.epoch + 1, lease := Some(Lease("old", w.epoch + 1, 9)), changes := w.changes + 1, active := active,
       calls := map[0 := Call(w.changes + 1, w.epoch + 1, snapshot, phase)])
  }

  function Token(w: World): Credential
    requires Idle(w)
  {
    Credential("old", w.epoch + 1)
  }

  lemma LeaseStretch(max: nat, w: World)
    requires Idle(w)
    ensures Apply(max, Apply(max, Apply(max, w, Bumping(Some("old"), 9)), Installing), Accepting(0)) == CallFrom(w, None, Accepted, 0)
  {
  }

  lemma LoadStretch(max: nat, w: World)
    requires max > 0 && Idle(w)
    ensures Apply(max, Apply(max, Apply(max, CallFrom(w, None, Accepted, 0), Snapshotting(0)), Admitting(0)), Loading(0, 0))
         == CallFrom(w, Some(w.epoch + 1), Loaded(Token(w)), 1)
  {
    var w1 := Apply(max, CallFrom(w, None, Accepted, 0), Snapshotting(0));
    assert w1 == CallFrom(w, Some(w.epoch + 1), Accepted, 0);
    assert Apply(max, w1, Admitting(0)) == CallFrom(w, Some(w.epoch + 1), Admitted, 1);
  }

  lemma ReadStretch(max: nat, w: World)
    requires max > 0 && Idle(w)
    ensures var loaded := CallFrom(w, Some(w.epoch + 1), Loaded(Token(w)), 1);
      Apply(max, Apply(max, Apply(max, loaded, Fetching(0)), Validating(0, 0)), Revalidating(0, 0))
      == CallFrom(w, Some(w.epoch + 1), Ready(Token(w)), 0)
  {
    var w1 := Apply(max, CallFrom(w, Some(w.epoch + 1), Loaded(Token(w)), 1), Fetching(0));
    assert w1 == CallFrom(w, Some(w.epoch + 1), Fetched(Token(w)), 1);
    assert Apply(max, w1, Validating(0, 0)) == CallFrom(w, Some(w.epoch + 1), Read(Token(w)), 0);
  }

  lemma ReadyRuns(max: nat, labels: seq<Label>)
    requires max > 0 && Idle(Run(max, labels))
    ensures var w := Run(max, labels); Run(max, labels + LEASED + LOADED + READY) == CallFrom(w, Some(w.epoch + 1), Ready(Token(w)), 0)
  {
    hide Run, Apply, CallFrom, Idle, Token;
    var w := Run(max, labels);
    LeaseStretch(max, w);
    LoadStretch(max, w);
    ReadStretch(max, w);
    RunThree(max, labels, Bumping(Some("old"), 9), Installing, Accepting(0));
    RunThree(max, labels + LEASED, Snapshotting(0), Admitting(0), Loading(0, 0));
    RunThree(max, labels + LEASED + LOADED, Fetching(0), Validating(0, 0), Revalidating(0, 0));
  }

  /** The world in which every epoch but the last was used by a revocation. */
  function LastEpoch(n: nat): World {
    Revoked(START, n)
  }

  lemma LastEpochRuns(max: nat, n: nat)
    requires max > 0 && n == U64_MAX - 1
    ensures Run(max, Revocations(n)) == LastEpoch(n) && Idle(LastEpoch(n)) && LastEpoch(n).epoch == n && LastEpoch(n).changes == n
    ensures LastEpoch(n).writes == []
  {
    RevokeMany(max, [], n);
    assert [] + Revocations(n) == Revocations(n);
  }

  /** The rotation that falls on the wrap: the epoch moves, the old lease stays, and
      a call accepted under it still passes its check and writes. */
  lemma WrapStep(max: nat, w: World)
    requires Idle(w) && w.epoch + 1 == U64_MAX && w.writes == []
    ensures var ready := CallFrom(w, Some(w.epoch + 1), Ready(Token(w)), 0);
      var w1 := Apply(max, Apply(max, Apply(max, ready, Bumping(Some("new"), 9)), Installing), Checking(0, 0));
      var w2 := Apply(max, w1, Writing(0));
      && w2.writes == [Write(w.changes + 1, w.changes + 2, "old", Some(Lease("old", w.epoch + 1, 9)))]
      && w2.changes == w.changes + 2 && w2.holder.None?
  {
    var ready := CallFrom(w, Some(w.epoch + 1), Ready(Token(w)), 0);
    var bumped := Apply(max, ready, Bumping(Some("new"), 9));
    assert bumped == ready.(epoch := 0, changes := ready.changes + 1, holder := Some(Rotate("new", None, 9)));
    var installed := Apply(max, bumped, Installing);
    assert installed == ready.(epoch := 0, changes := ready.changes + 1);
    assert Valid(installed.lease, installed.calls[0].epoch, 0);
  }

  /** Exactly as many changes as epochs already suffice, and so does any larger
      number: a write follows a check although a rotation had begun since its call
      was accepted. */
  lemma BoundIsTight(max: nat, changes: nat) returns (labels: seq<Label>)
    requires max > 0 && changes >= EPOCHS
    ensures Run(max, labels).changes == changes && |Run(max, labels).writes| == 1
    ensures Run(max, labels).writes[0].checkedAt != Run(max, labels).writes[0].acceptedAt
  {
    hide Run, Apply, CallFrom, Idle, Token, LastEpoch, Revocations;
    var n := U64_MAX - 1;
    var before := Revocations(n);
    LastEpochRuns(max, n);
    ReadyRuns(max, before);
    WrapStep(max, LastEpoch(n));
    var ready := before + LEASED + LOADED + READY;
    RunThree(max, ready, Bumping(Some("new"), 9), Installing, Checking(0, 0));
    var checked := ready + [Bumping(Some("new"), 9), Installing, Checking(0, 0)];
    RunMore(max, checked, Writing(0));
    labels := checked + [Writing(0)];
    if changes > EPOCHS {
      RevokeMany(max, labels, changes - EPOCHS);
      labels := labels + Revocations(changes - EPOCHS);
    }
  }

  // One change more, and the check passes under another lease altogether.

  /** All epochs gone through while a call was ready. */
  function Wrapped(): World {
    CallFrom(START, Some(1), Ready(Token(START)), 0).(epoch := 0, lease := None, changes := EPOCHS)
  }

  lemma WrappedRuns(max: nat, n: nat)
    requires max > 0 && n == U64_MAX
    ensures Run(max, LEASED + LOADED + READY + Revocations(n)) == Wrapped()
  {
    hide Apply, Revocations;
    ReadyRuns(max, []);
    assert [] + LEASED + LOADED + READY == LEASED + LOADED + READY;
    RevokeMany(max, LEASED + LOADED + READY, n);
  }

  function Deceived(): World {
    var lease := Some(Lease("new", 1, 9));
    Wrapped().(epoch := 1, lease := lease, changes := EPOCHS + 1,
               calls := map[0 := Call(1, 1, Some(1), Checked(Credential("old", 1)))], checks := map[0 := (EPOCHS + 1, lease)])
  }

  lemma DeceivedRuns(max: nat)
    ensures Apply(max, Apply(max, Apply(max, Wrapped(), Bumping(Some("new"), 9)), Installing), Checking(0, 0)) == Deceived()
  {
    var w1 := Apply(max, Apply(max, Wrapped(), Bumping(Some("new"), 9)), Installing);
    assert w1 == Wrapped().(epoch := 1, lease := Some(Lease("new", 1, 9)), changes := EPOCHS + 1);
    assert Valid(w1.lease, 1, 0);
  }

  lemma DeceivedWrites(max: nat)
    ensures var w := Apply(max, Deceived(), Writing(0));
      w.changes == EPOCHS + 1 && w.writes == [Write(1, EPOCHS + 1, "old", Some(Lease("new", 1, 9)))]
  {
  }

  /** A call's output is written although another token's lease is installed. */
  lemma WrappedEpochDeceives(max: nat) returns (labels: seq<Label>)
    requires max > 0
    ensures Run(max, labels).changes == EPOCHS + 1 && |Run(max, labels).writes| == 1
    ensures var write := Run(max, labels).writes[0];
      write.checkedAt != write.acceptedAt && write.installed.Some? && write.installed.value.token != write.token
  {
    hide Run, Apply, Wrapped, Deceived, Revocations;
    var n := U64_MAX;
    var revoked := LEASED + LOADED + READY + Revocations(n);
    WrappedRuns(max, n);
    RunThree(max, revoked, Bumping(Some("new"), 9), Installing, Checking(0, 0));
    DeceivedRuns(max);
    DeceivedWrites(max);
    RunMore(max, revoked + [Bumping(Some("new"), 9), Installing, Checking(0, 0)], Writing(0));
    labels := revoked + [Bumping(Some("new"), 9), Installing, Checking(0, 0)] + [Writing(0)];
  }

  // What the steps do, and when they do it.

  /** A rotation moves the epoch and installs its token under the new one, unless
      the counter wraps; a revocation moves the epoch and leaves no lease. Nothing
      else about the calls changes. */
  lemma ChangesInstall(max: nat, w: World, token: Option<string>, expires: nat)
    requires w.holder.None?
    ensures var w' := Apply(max, Apply(max, w, Bumping(token, expires)), Installing);
      w' == w.(changes := w.changes + 1,
               epoch := if w.epoch == U64_MAX then 0 else w.epoch + 1,
               lease := if token.None? then None
                        else if w.epoch == U64_MAX then w.lease
                        else Some(Lease(token.value, w.epoch + 1, expires)))
  {
  }

  ghost predicate Due(w: World, id: nat, now: nat) {
    && w.granted && w.holder.None? && w.lease.Some? && w.lease.value.epoch == w.epoch && now < w.lease.value.expires
    && id !in w.calls
  }

  function RunFrom(max: nat, w: World, labels: seq<Label>): World
    decreases |labels|
  {
    if labels == [] then w else RunFrom(max, Apply(max, w, labels[0]), labels[1..])
  }

  lemma FourSteps(max: nat, w: World, a: Label, b: Label, c: Label, d: Label, rest: seq<Label>)
    ensures RunFrom(max, w, [a, b, c, d] + rest) == RunFrom(max, Apply(max, Apply(max, Apply(max, Apply(max, w, a), b), c), d), rest)
  {
    hide Apply;
    var w1 := Apply(max, w, a);
    var w2 := Apply(max, w1, b);
    var w3 := Apply(max, w2, c);
    assert ([a, b, c, d] + rest)[1..] == [b, c, d] + rest;
    assert RunFrom(max, w, [a, b, c, d] + rest) == RunFrom(max, w1, [b, c, d] + rest);
    assert ([b, c, d] + rest)[1..] == [c, d] + rest;
    assert RunFrom(max, w1, [b, c, d] + rest) == RunFrom(max, w2, [c, d] + rest);
    assert ([c, d] + rest)[1..] == [d] + rest;
    assert RunFrom(max, w2, [c, d] + rest) == RunFrom(max, w3, [d] + rest);
    assert ([d] + rest)[1..] == rest;
  }

  lemma LastStep(max: nat, w: World, l: Label)
    ensures RunFrom(max, w, [l]) == Apply(max, w, l)
  {
    hide Apply;
    assert [l][1..] == [];
  }

  lemma CheckedWrites(max: nat, w: World, id: nat, now: nat)
    requires id in w.calls && w.calls[id].phase.Checked? && id in w.checks
    ensures var c, w' := w.calls[id], Apply(max, w, Writing(id));
      && w'.writes == w.writes + [Write(c.acceptedAt, w.checks[id].0, c.phase.credential.token, w.checks[id].1)]
      && w'.active == w.active && w'.lease == w.lease && w'.epoch == w.epoch
  {
  }

  lemma CallLoads(max: nat, w: World, id: nat, now: nat)
    requires Due(w, id, now) && w.active < max
    ensures var credential := Credential(w.lease.value.token, w.epoch);
      Apply(max, Apply(max, Apply(max, Apply(max, w, Accepting(id)), Snapshotting(id)), Admitting(id)), Loading(id, now))
        == w.(active := w.active + 1, calls := w.calls[id := Call(w.changes, w.epoch, Some(w.epoch), Loaded(credential))])
  {
  }

  lemma CallReads(max: nat, w: World, id: nat, now: nat, c: Call)
    requires id in w.calls && w.calls[id] == c && c.phase.Loaded? && c.phase.credential.epoch == c.epoch && c.snapshot == Some(c.epoch)
    requires w.granted && w.holder.None? && Valid(w.lease, c.epoch, now) && w.active > 0
    ensures Apply(max, Apply(max, Apply(max, Apply(max, w, Fetching(id)), Validating(id, now)), Revalidating(id, now)), Checking(id, now))
        == w.(active := w.active - 1, calls := w.calls[id := c.(phase := Checked(c.phase.credential))], checks := w.checks[id := (w.changes, w.lease)])
  {
  }

  /** A call that nothing disturbs writes the output its token fetched, and gives
      its slot back. */
  lemma QuietCallWrites(max: nat, w: World, id: nat, now: nat)
    requires Due(w, id, now) && w.active < max
    ensures var w' := RunFrom(max, w, [Accepting(id), Snapshotting(id), Admitting(id), Loading(id, now)]
                                      + ([Fetching(id), Validating(id, now), Revalidating(id, now), Checking(id, now)] + [Writing(id)]));
      && w'.writes == w.writes + [Write(w.changes, w.changes, w.lease.value.token, w.lease)]
      && w'.active == w.active && w'.lease == w.lease && w'.epoch == w.epoch
  {
    hide Apply, RunFrom;
    FourSteps(max, w, Accepting(id), Snapshotting(id), Admitting(id), Loading(id, now),
              [Fetching(id), Validating(id, now), Revalidating(id, now), Checking(id, now)] + [Writing(id)]);
    CallLoads(max, w, id, now);
    var credential := Credential(w.lease.value.token, w.epoch);
    var c := Call(w.changes, w.epoch, Some(w.epoch), Loaded(credential));
    var loaded := w.(active := w.active + 1, calls := w.calls[id := c]);
    FourSteps(max, loaded, Fetching(id), Validating(id, now), Revalidating(id, now), Checking(id, now), [Writing(id)]);
    CallReads(max, loaded, id, now, c);
    var checked := w.(calls := w.calls[id := c.(phase := Checked(credential))], checks := w.checks[id := (w.changes, w.lease)]);
    assert loaded.calls[id := c.(phase := Checked(credential))] == checked.calls;
    LastStep(max, checked, Writing(id));
    CheckedWrites(max, checked, id, now);
  }

  /** A call gets no further than its slot, its grant and its lease allow: with all
      slots taken none is admitted; once the grant is revoked none is admitted,
      fetches or is read; once the lease has expired, is gone or is another
      epoch's, none loads it, is read or is checked. */
  lemma NothingPassesWithout(max: nat, w: World, id: nat, now: nat)
    requires id in w.calls
    ensures w.active >= max || !w.granted ==> Apply(max, w, Admitting(id)) == w
    ensures !w.granted ==>
      Apply(max, w, Fetching(id)) == w && Apply(max, w, Validating(id, now)) == w && Apply(max, w, Revalidating(id, now)) == w
    ensures w.lease.None? || now >= w.lease.value.expires ==>
      && Apply(max, w, Loading(id, now)) == w && Apply(max, w, Validating(id, now)) == w
      && Apply(max, w, Revalidating(id, now)) == w && Apply(max, w, Checking(id, now)) == w
    ensures w.lease.Some? && w.lease.value.epoch != w.calls[id].epoch ==> Apply(max, w, Checking(id, now)) == w
    ensures w.holder.Some? ==>
      && Apply(max, w, Loading(id, now)) == w && Apply(max, w, Validating(id, now)) == w
      && Apply(max, w, Revalidating(id, now)) == w && Apply(max, w, Checking(id, now)) == w
  {
  }

  /** A revoked grant stays revoked. */
  lemma {:induction false} RevokedForGood(max: nat, labels: seq<Label>, k: nat)
    requires k <= |labels| && !Run(max, labels[..k]).granted
    ensures !Run(max, labels).granted
    decreases |labels|
  {
    if k == |labels| {
      assert labels[..k] == labels;
    } else {
      var before := labels[..|labels| - 1];
      assert before[..k] == labels[..k];
      RevokedForGood(max, before, k);
      StaysRevoked(max, Run(max, before), labels[|labels| - 1]);
      hide Apply;
    }
  }

  lemma StaysRevoked(max: nat, w: World, l: Label)
    requires !w.granted
    ensures !Apply(max, w, l).granted
  {
  }

  // The lease slot, changed in place.

  /** The lease slot and its epoch. */
  class RuntimeCredentials {
    var lease: Option<Lease>
    var epoch: U64
    const generation: nat

    constructor (generation: nat)
      ensures lease == None && epoch == 0 && this.generation == generation
    {
      lease, epoch, this.generation := None, 0, generation;
    }

    /** The credential part of a world in which nobody is changing the lease. */
    ghost function In(w: World): World
      reads this
    {
      w.(lease := lease, epoch := epoch, holder := None)
    }

    method Rotate(token: string, generation: nat, expires: nat, consent: bool, now: nat, ghost w: World) returns (ok: bool)
      requires In(w) == w
      modifies this
      ensures var rotates := consent && generation == this.generation && now < expires <= now + 86400;
        && (!rotates ==> !ok && In(w) == w)
        && (rotates ==> var bumped := Bump(w, Some(token), expires); In(bumped) == Install(bumped, bumped.holder.value))
        && (ok <==> rotates && old(epoch) < U64_MAX)
    {
      if !consent || generation != this.generation || expires <= now || expires > now + 86400 {
        return false;
      }
      var before := epoch;
      epoch := if before == U64_MAX then 0 else before + 1;
      if before == U64_MAX {
        return false;
      }
      lease := Some(Lease(token, before + 1, expires));
      return true;
    }

    method RevokeLease(ghost w: World)
      requires In(w) == w
      modifies this
      ensures var bumped := Bump(w, None, 0); In(bumped) == Install(bumped, bumped.holder.value)
    {
      epoch := if epoch == U64_MAX then 0 else epoch + 1;
      lease := None;
    }

    method Load(now: nat) returns (r: Option<Credential>)
      ensures r.Some? <==> lease.Some? && now < lease.value.expires
      ensures r.Some? ==> r.value == Credential(lease.value.token, lease.value.epoch) && Valid(lease, r.value.epoch, now)
    {
      if lease.None? || now >= lease.value.expires {
        return None;
      }
      return Some(Credential(lease.value.token, lease.value.epoch));
    }

    method Validate(epoch: U64, now: nat) returns (ok: bool)
      ensures ok <==> Valid(lease, epoch, now)
    {
      if lease.None? {
        return false;
      }
      if lease.value.epoch != epoch {
        return false;
      }
      return now < lease.value.expires;
    }
  }
}
