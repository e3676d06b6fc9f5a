/** Enrolment and the command queue together (hub/dashboard/agentapi.go:29-86, 89-143, 159-225,
    hub/dashboard/portal.go:91-105, 645-669, hub/dashboard/scheduler.go:143-154). A device is known to its agent
    by a token, to the administrator by its site and to the queue by the number of its row, which the database
    may give again after a deletion. Each handler is one step. */
module Service {
  import opened Common
  import opened Enrollment
  import Queue

  datatype State = State(hub: Hub, ids: map<Site, int>, queue: Queue.State)

  datatype Step =
    | Enroll(site: Site, number: int)      // `number` is for a new row
    | Approve(site: Site, works: bool)
    | TurnAway(site: Site, to: Status)
    | Delete(site: Site)
    | Rekey(site: Site, works: bool)
    | AckKey(token: nat)
    | Command(site: Site, manual: bool)    // sent by hand, or by an action, which needs an approved device
    | Beat(token: nat)
    | Result(token: nat, id: nat, ok: bool)

  const EMPTY := State(Hub(map[], 0, 0), map[], Queue.State([], map[]))

  // ----- one step -----

  /** Some stored device has the number. */
  predicate Assigned(ids: map<Site, int>, number: int) {
    exists a :: a in ids && ids[a] == number
  }

  function Number(s: State, site: Site): int {
    if site in s.ids then s.ids[site] else 0
  }

  ghost function HubAfter(net: Network, h: Hub, step: Step): Hub {
    match step
    case Enroll(site, _) => EnrollAt(h, site)
    case Approve(site, works) => ApproveAt(net, h, site, works)
    case TurnAway(site, to) => RevokeAt(h, site, if to == Rejected then Rejected else Revoked)
    case Delete(site) => DeleteAt(h, site)
    case Rekey(site, works) => RekeyAt(net, h, site, works)
    case AckKey(token) => if Holder(h, token).Some? then AckAt(h, Holder(h, token).value) else h
    case _ => h
  }

  function IdsAfter(ids: map<Site, int>, step: Step): map<Site, int> {
    match step
    case Enroll(site, number) => if site in ids then ids else ids[site := number]
    case Delete(site) => ids - {site}
    case _ => ids
  }

  /** What the step means to the queue, if anything: the handlers of the agent find the device by its token and
      read its status from its row. */
  ghost function Queued(s: State, step: Step): Option<Queue.Step> {
    match step
    case Command(site, manual) =>
      if site in s.hub.rows && (manual || IsApproved(s.hub, site)) then Some(Queue.Add(Number(s, site))) else None
    case Beat(token) =>
      var holder := Holder(s.hub, token);
      if holder.None? then None
      else Some(Queue.Beat(Number(s, holder.value), IsApproved(s.hub, holder.value)))
    case Result(token, id, ok) =>
      var holder := Holder(s.hub, token);
      if holder.None? then None else Some(Queue.Result(Number(s, holder.value), id, ok))
    case Delete(site) => if site in s.hub.rows then Some(Queue.Drop(Number(s, site))) else None
    case _ => None
  }

  ghost function QueueAfter(s: State, step: Step): Queue.State {
    var q := Queued(s, step);
    if q.Some? then Queue.Next(s.queue, q.value) else s.queue
  }

  /** A new row never gets a number that is in use. */
  predicate Possible(s: State, step: Step) {
    step.Enroll? && step.site !in s.hub.rows ==> !Assigned(s.ids, step.number)
  }

  ghost function Next(net: Network, s: State, step: Step): State {
    if !Possible(s, step) then s
    else State(HubAfter(net, s.hub, step), IdsAfter(s.ids, step), QueueAfter(s, step))
  }

  ghost function RunFrom(net: Network, s: State, steps: seq<Step>): State
    decreases steps
  {
    if steps == [] then s else RunFrom(net, Next(net, s, steps[0]), steps[1..])
  }

  // ----- what every run keeps -----

  /** The stored devices have distinct numbers. */
  predicate Numbered(h: Hub, ids: map<Site, int>) {
    && ids.Keys == h.rows.Keys
    && forall a, b :: a in ids && b in ids && a != b ==> ids[a] != ids[b]
  }

  ghost predicate Untouched(q: Queue.State, d: int) {
    Queue.Given(q, d) == [] && forall c :: c in q.rows ==> c.device != d
  }

  /** Nothing is stored or remembered under a number that no device has. */
  ghost predicate NothingLeft(ids: map<Site, int>, q: Queue.State) {
    forall d: int :: !Assigned(ids, d) ==> Untouched(q, d)
  }

  ghost predicate Good(s: State) {
    Sound(s.hub) && Queue.Good(s.queue) && Numbered(s.hub, s.ids) && NothingLeft(s.ids, s.queue)
  }

  lemma HubStepIsLocal(net: Network, h: Hub, step: Step) returns (at: Site)
    requires Sound(h)
    ensures Local(h, HubAfter(net, h, step), at)
  {
    match step
    case Enroll(site, _) =>
      at := site;
      EnrollIsLocal(h, site);
    case AckKey(token) =>
      at := if Holder(h, token).Some? then Holder(h, token).value else Site(0, "");
      AckIsLocal(h, at);
    case Approve(site, works) =>
      at := site;
      AdminIsLocal(net, h, site, works, Revoked);
    case TurnAway(site, to) =>
      at := site;
      AdminIsLocal(net, h, site, true, if to == Rejected then Rejected else Revoked);
    case Delete(site) =>
      at := site;
      AdminIsLocal(net, h, site, true, Revoked);
    case Rekey(site, works) =>
      at := site;
      AdminIsLocal(net, h, site, works, Revoked);
    case _ =>
      at := Site(0, "");
  }

  /** The stored devices after a step. */
  lemma RowsAfter(net: Network, h: Hub, step: Step)
    ensures HubAfter(net, h, step).rows.Keys ==
            if step.Enroll? then h.rows.Keys + {step.site}
            else if step.Delete? then h.rows.Keys - {step.site}
            else h.rows.Keys
  {
  }

  lemma HubStepKeepsSound(net: Network, h: Hub, step: Step)
    requires Sound(h)
    ensures Sound(HubAfter(net, h, step))
  {
    var at := HubStepIsLocal(net, h, step);
    LocalKeepsSound(h, HubAfter(net, h, step), at);
  }

  lemma NumbersStay(net: Network, s: State, step: Step)
    requires Numbered(s.hub, s.ids) && Possible(s, step)
    ensures Numbered(HubAfter(net, s.hub, step), IdsAfter(s.ids, step))
  {
  }

  lemma OtherQueueStep(q: Queue.State, step: Queue.Step, d: int)
    requires Untouched(q, d) && step.device != d
    ensures Untouched(Queue.Next(q, step), d)
  {
    if step.Drop? {
      forall c | c in Queue.Dropped(q.rows, step.device) ensures c.device != d {
        Queue.DroppedHas(q.rows, step.device, c);
      }
    }
  }

  lemma DropLeavesNothing(q: Queue.State, d: int)
    ensures Untouched(Queue.Next(q, Queue.Drop(d)), d)
  {
    forall c | c in Queue.Dropped(q.rows, d) ensures c.device != d {
      Queue.DroppedHas(q.rows, d, c);
    }
  }

  /** The queue hears only of stored devices. */
  lemma QueuedIsAssigned(s: State, step: Step)
    requires Numbered(s.hub, s.ids) && Queued(s, step).Some?
    ensures Assigned(s.ids, Queued(s, step).value.device)
  {
    var site := match step
      case Command(at, _) => at
      case Delete(at) => at
      case Beat(token) => Holder(s.hub, token).value
      case Result(token, _, _) => Holder(s.hub, token).value
      case _ => Site(0, "");
    assert site in s.ids && s.ids[site] == Queued(s, step).value.device;
  }

  lemma StaysAssigned(ids: map<Site, int>, step: Step, site: Site)
    requires site in ids && step != Delete(site)
    ensures Assigned(IdsAfter(ids, step), ids[site])
  {
    assert site in IdsAfter(ids, step) && IdsAfter(ids, step)[site] == ids[site];
  }

  lemma NothingLeftAt(net: Network, s: State, step: Step, d: int)
    requires Good(s) && Possible(s, step) && !Assigned(IdsAfter(s.ids, step), d)
    ensures Untouched(QueueAfter(s, step), d)
  {
    if Assigned(s.ids, d) {
      var site :| site in s.ids && s.ids[site] == d;
      if step == Delete(site) {
        DropLeavesNothing(s.queue, d);
      } else {
        StaysAssigned(s.ids, step, site);
        assert false;
      }
    } else if Queued(s, step).Some? {
      QueuedIsAssigned(s, step);
      OtherQueueStep(s.queue, Queued(s, step).value, d);
    }
  }

  lemma StepKeeps(net: Network, s: State, step: Step)
    requires Good(s)
    ensures Good(Next(net, s, step))
  {
    if Possible(s, step) {
      HubStepKeepsSound(net, s.hub, step);
      NumbersStay(net, s, step);
      if Queued(s, step).Some? {
        Queue.StepKeeps(s.queue, Queued(s, step).value);
      }
      forall d: int | !Assigned(IdsAfter(s.ids, step), d) ensures Untouched(QueueAfter(s, step), d) {
        NothingLeftAt(net, s, step, d);
      }
    }
  }

  lemma {:induction false} StaysGood(net: Network, s: State, steps: seq<Step>)
    requires Good(s)
    ensures Good(RunFrom(net, s, steps))
    decreases steps
  {
    if steps != [] {
      StepKeeps(net, s, steps[0]);
      StaysGood(net, Next(net, s, steps[0]), steps[1..]);
    }
  }

  lemma EmptyIsGood()
    ensures Good(EMPTY)
  {
    forall d: int ensures Queue.GivenFirst(EMPTY.queue.rows, d, Queue.Given(EMPTY.queue, d)) {}
  }

  function Waiting(s: State, site: Site): seq<nat> {
    Queue.Waiting(s.queue.rows, Number(s, site))
  }

  /** What the device of the site was given since its row was made. */
  function Given(s: State, site: Site): seq<nat> {
    Queue.Given(s.queue, Number(s, site))
  }

  // ----- who is served -----

  /** The step is a heartbeat with the present token of the device, while it is approved. */
  predicate Serves(s: State, step: Step, site: Site) {
    step.Beat? && IsApproved(s.hub, site) && s.hub.rows[site].token == step.token
  }

  lemma OtherGiven(q: Queue.State, step: Queue.Step, d: int)
    requires step.device != d || step.Add? || step.Result?
    ensures Queue.Given(Queue.Next(q, step), d) == Queue.Given(q, d)
  {
  }

  /** In every run: as long as the device stays, what it was given grows only by a heartbeat that carries its
      present token while it is approved, and then by the next batch of what waits for it. */
  lemma OnlyTheApprovedAreServed(net: Network, steps: seq<Step>, step: Step, site: Site)
    requires site in RunFrom(net, EMPTY, steps).hub.rows && step != Delete(site)
    ensures var s := RunFrom(net, EMPTY, steps);
            Given(Next(net, s, step), site) ==
            Given(s, site) + if Serves(s, step, site) then Queue.FirstOf(Waiting(s, site), Queue.BATCH) else []
  {
    EmptyIsGood();
    StaysGood(net, EMPTY, steps);
    StepGives(net, RunFrom(net, EMPTY, steps), step, site);
  }

  lemma StepGives(net: Network, s: State, step: Step, site: Site)
    requires Good(s) && site in s.hub.rows && step != Delete(site)
    ensures Given(Next(net, s, step), site) ==
            Given(s, site) + if Serves(s, step, site) then Queue.FirstOf(Waiting(s, site), Queue.BATCH) else []
  {
    NothingMore(Given(s, site));
    if Possible(s, step) {
      assert Number(Next(net, s, step), site) == Number(s, site);
      var q := Queued(s, step);
      if Serves(s, step, site) {
        HolderIsUnique(s.hub, site, step.token);
      } else if q.Some? && !q.value.Beat? {
        if q.value.Drop? {
          assert step.site in s.ids && s.ids[step.site] != s.ids[site];
        }
        OtherGiven(s.queue, q.value, Number(s, site));
      } else if q.Some? {
        NotServed(s, step, site);
      }
    }
  }

  /** A command joins the end of the queue, for that device and not yet sent, exactly when the device is stored
      and the command is sent by hand or the device is approved; otherwise nothing changes. */
  lemma CommandJoins(net: Network, s: State, site: Site, manual: bool)
    requires Good(s)
    ensures var s' := Next(net, s, Command(site, manual));
            && s'.hub == s.hub && s'.ids == s.ids && s'.queue.given == s.queue.given
            && if site in s.hub.rows && (manual || s.hub.rows[site].status == Approved) then
                 && |s'.queue.rows| == |s.queue.rows| + 1 && s'.queue.rows[..|s.queue.rows|] == s.queue.rows
                 && var last := s'.queue.rows[|s.queue.rows|];
                    && last.device == s.ids[site] && last.progress == Queue.Queued
                    && forall c :: c in s.queue.rows ==> c.id < last.id
               else s'.queue.rows == s.queue.rows
  {
    Queue.NextIdIsAbove(s.queue.rows, Number(s, site));
  }

  /** A result settles the commands of that number for the device whose present token it carries, well or badly
      as it says, and nothing else. */
  lemma ResultSettles(net: Network, s: State, site: Site, id: nat, ok: bool)
    requires Good(s) && site in s.hub.rows
    ensures var s' := Next(net, s, Result(s.hub.rows[site].token, id, ok));
            && s'.hub == s.hub && s'.ids == s.ids && s'.queue.given == s.queue.given
            && |s'.queue.rows| == |s.queue.rows|
            && forall i :: 0 <= i < |s.queue.rows| ==>
                 var c, c' := s.queue.rows[i], s'.queue.rows[i];
                 if c.id == id && c.device == s.ids[site] then
                   c' == c.(progress := if ok then Queue.Done else Queue.Failed)
                 else c' == c
  {
    HolderIsUnique(s.hub, site, s.hub.rows[site].token);
  }

  /** A heartbeat that does not serve the device gives it nothing. */
  lemma NotServed(s: State, step: Step, site: Site)
    requires Good(s) && site in s.hub.rows && step.Beat? && !Serves(s, step, site)
    ensures Queue.Given(QueueAfter(s, step), Number(s, site)) == Given(s, site)
  {
    var holder := Holder(s.hub, step.token);
    NothingMore(Given(s, site));
    if holder.Some? && holder.value != site {
      assert holder.value in s.ids && s.ids[holder.value] != s.ids[site];
      OtherGiven(s.queue, Queued(s, step).value, Number(s, site));
    }
  }

  /** In every run no command goes out twice, and each batch comes after all those before. */
  lemma GivenOnceInOrder(net: Network, steps: seq<Step>, site: Site)
    ensures Queue.Increasing(Given(RunFrom(net, EMPTY, steps), site))
  {
    var s := RunFrom(net, EMPTY, steps);
    EmptyIsGood();
    StaysGood(net, EMPTY, steps);
    assert Queue.GivenFirst(s.queue.rows, Number(s, site), Given(s, site));
  }

  /** A row that takes the number of a deleted one inherits nothing. */
  lemma NewDeviceStartsEmpty(net: Network, steps: seq<Step>, site: Site, number: int)
    requires var s := RunFrom(net, EMPTY, steps); site !in s.hub.rows && !Assigned(s.ids, number)
    ensures var s' := Next(net, RunFrom(net, EMPTY, steps), Enroll(site, number));
            Number(s', site) == number && Waiting(s', site) == [] && Given(s', site) == []
  {
    var s := RunFrom(net, EMPTY, steps);
    EmptyIsGood();
    StaysGood(net, EMPTY, steps);
    assert Untouched(s.queue, number);
    NothingWaits(s.queue.rows, number);
  }

  lemma NothingWaits(rows: seq<Queue.Command>, d: int)
    requires forall c :: c in rows ==> c.device != d
    ensures Queue.Waiting(rows, d) == []
  {
    var w := Queue.Waiting(rows, d);
    if w != [] {
      Queue.WaitingIs(rows, d, w[0]);
    }
  }

  // ----- devices turned away and tokens replaced -----

  /** The step neither approves nor deletes the device; an approval without a key fails. */
  predicate Leaves(net: Network, step: Step, site: Site) {
    && (step.Approve? && step.site == site ==> net.enabled && !step.works)
    && step != Delete(site)
  }

  lemma StaysNotApproved(net: Network, h: Hub, step: Step, site: Site)
    requires site in h.rows && !IsApproved(h, site) && Leaves(net, step, site)
    ensures site in HubAfter(net, h, step).rows && !IsApproved(HubAfter(net, h, step), site)
  {
  }

  lemma NothingWhileNotApproved(net: Network, s: State, step: Step, site: Site)
    requires Good(s) && site in s.hub.rows && !IsApproved(s.hub, site) && Leaves(net, step, site)
    ensures var t := Next(net, s, step);
            site in t.hub.rows && !IsApproved(t.hub, site) && Given(t, site) == Given(s, site)
  {
    StaysNotApproved(net, s.hub, step, site);
    StepGives(net, s, step, site);
    NothingMore(Given(s, site));
  }

  /** A device that is not approved is given nothing until it is approved, whatever it and the others do, and
      enrolling again does not help. */
  lemma {:induction false} NothingUntilApproved(net: Network, s: State, steps: seq<Step>, site: Site)
    requires Good(s) && site in s.hub.rows && !IsApproved(s.hub, site)
    requires forall i :: 0 <= i < |steps| ==> Leaves(net, steps[i], site)
    ensures var t := RunFrom(net, s, steps);
            site in t.hub.rows && !IsApproved(t.hub, site) && Given(t, site) == Given(s, site)
    decreases steps
  {
    if steps != [] {
      assert Leaves(net, steps[0], site);
      StepKeeps(net, s, steps[0]);
      NothingWhileNotApproved(net, s, steps[0], site);
      NothingUntilApproved(net, Next(net, s, steps[0]), steps[1..], site);
    }
  }

  /** The token was made and no device has it. */
  predicate Dead(h: Hub, token: nat) {
    token < h.tokens && forall a :: a in h.rows ==> h.rows[a].token != token
  }

  lemma DeadAfter(net: Network, s: State, step: Step, token: nat)
    requires Good(s) && Dead(s.hub, token)
    ensures Dead(Next(net, s, step).hub, token)
  {
    var at := HubStepIsLocal(net, s.hub, step);
  }

  lemma {:induction false} DeadStaysDead(net: Network, s: State, steps: seq<Step>, token: nat)
    requires Good(s) && Dead(s.hub, token)
    ensures Dead(RunFrom(net, s, steps).hub, token)
    decreases steps
  {
    if steps != [] {
      StepKeeps(net, s, steps[0]);
      DeadAfter(net, s, steps[0], token);
      DeadStaysDead(net, Next(net, s, steps[0]), steps[1..], token);
    }
  }

  lemma TokenDies(net: Network, s: State, step: Step, site: Site)
    requires Good(s) && site in s.hub.rows
    requires var h := Next(net, s, step).hub; site in h.rows ==> h.rows[site].token != s.hub.rows[site].token
    ensures Dead(Next(net, s, step).hub, s.hub.rows[site].token)
  {
    var s', token := Next(net, s, step), s.hub.rows[site].token;
    assert Known(s.hub, s.hub.rows[site]);
    var at := HubStepIsLocal(net, s.hub, step);
    forall a | a in s'.hub.rows ensures s'.hub.rows[a].token != token {
      if a != site && a in s.hub.rows {
        assert Apart(s.hub.rows[site], s.hub.rows[a]);
      }
    }
  }

  lemma DeadIsRefused(net: Network, s: State, step: Step)
    requires (step.Beat? || step.Result? || step.AckKey?) && Dead(s.hub, step.token)
    ensures Next(net, s, step) == s
  {
  }

  /** A token that left its device - replaced by a new enrolment, or deleted with it - is refused for ever: a
      heartbeat, a result or a confirmation under it changes nothing. */
  lemma OldTokenIsRefused(net: Network, s: State, step: Step, steps: seq<Step>, site: Site, later: Step)
    requires Good(s) && site in s.hub.rows
    requires var h := Next(net, s, step).hub; site in h.rows ==> h.rows[site].token != s.hub.rows[site].token
    requires (later.Beat? || later.Result? || later.AckKey?) && later.token == s.hub.rows[site].token
    ensures var t := RunFrom(net, Next(net, s, step), steps); Next(net, t, later) == t
  {
    TokenDies(net, s, step, site);
    StepKeeps(net, s, step);
    DeadStaysDead(net, Next(net, s, step), steps, s.hub.rows[site].token);
    DeadIsRefused(net, RunFrom(net, Next(net, s, step), steps), later);
  }
}
