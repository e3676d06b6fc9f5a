/** The queue of commands for the agents (hub/dashboard/models.go:421-429,
    hub/dashboard/agentapi.go:182-198, 204-240, hub/dashboard/portal.go:99-104). */
module Queue {
  import opened Common

  datatype Progress = Queued | Sent | Done | Failed

  datatype Command = Command(id: nat, device: int, progress: Progress)

  const BATCH := 20

  // ----- what each handler does to the table -----

  /** The rows in the order of their identifiers. */
  predicate Ordered(rows: seq<Command>) {
    forall i, j :: 0 <= i < j < |rows| ==> rows[i].id < rows[j].id
  }

  /** The identifiers of the commands waiting for a device, in order. */
  function Waiting(rows: seq<Command>, device: int): seq<nat> {
    if rows == [] then []
    else
      var init, c := rows[..|rows| - 1], rows[|rows| - 1];
      if c.device == device && c.progress == Queued then Waiting(init, device) + [c.id] else Waiting(init, device)
  }

  function FirstOf(ids: seq<nat>, n: nat): seq<nat> {
    if |ids| <= n then ids else ids[..n]
  }

  /** What one heartbeat of the device is given. */
  function Batch(rows: seq<Command>, device: int, approved: bool): seq<nat> {
    if approved then FirstOf(Waiting(rows, device), BATCH) else []
  }

  function MarkOne(c: Command, ids: seq<nat>): Command {
    if c.id in ids then c.(progress := Sent) else c
  }

  function Marked(rows: seq<Command>, ids: seq<nat>): (out: seq<Command>)
    ensures |out| == |rows|
  {
    seq(|rows|, i requires 0 <= i < |rows| => MarkOne(rows[i], ids))
  }

  function NextId(rows: seq<Command>): nat {
    if rows == [] then 1 else rows[|rows| - 1].id + 1
  }

  function Settle(c: Command, device: int, id: nat, ok: bool): Command {
    if c.id == id && c.device == device then c.(progress := if ok then Done else Failed) else c
  }

  function Settled(rows: seq<Command>, device: int, id: nat, ok: bool): seq<Command> {
    seq(|rows|, i requires 0 <= i < |rows| => Settle(rows[i], device, id, ok))
  }

  function Dropped(rows: seq<Command>, device: int): seq<Command> {
    if rows == [] then []
    else
      var init, c := rows[..|rows| - 1], rows[|rows| - 1];
      if c.device == device then Dropped(init, device) else Dropped(init, device) + [c]
  }

  lemma WaitingLast(rows: seq<Command>, c: Command, device: int)
    ensures Waiting(rows + [c], device) ==
            if c.device == device && c.progress == Queued then Waiting(rows, device) + [c.id] else Waiting(rows, device)
  {
    assert (rows + [c])[..|rows|] == rows;
  }

  lemma DroppedLast(rows: seq<Command>, c: Command, device: int)
    ensures Dropped(rows + [c], device) ==
            if c.device == device then Dropped(rows, device) else Dropped(rows, device) + [c]
  {
    assert (rows + [c])[..|rows|] == rows;
  }

  predicate Waits(rows: seq<Command>, device: int, id: nat) {
    Command(id, device, Queued) in rows
  }

  /** Exactly the queued commands of the device wait. */
  lemma {:induction false} WaitingIs(rows: seq<Command>, device: int, id: nat)
    ensures id in Waiting(rows, device) <==> Waits(rows, device, id)
  {
    if rows != [] {
      var init, c := rows[..|rows| - 1], rows[|rows| - 1];
      WaitingIs(init, device, id);
      assert rows == init + [c];
    }
  }

  // ----- the table -----

  class Table {
    var rows: seq<Command>

    ghost predicate Valid()
      reads this
    {
      Ordered(rows)
    }

    constructor ()
      ensures Valid() && rows == []
    {
      rows := [];
    }

    /** The new command is numbered above all those stored. */
    method Add(device: int) returns (id: nat)
      requires Valid()
      modifies this
      ensures Valid() && id == NextId(old(rows)) && rows == old(rows) + [Command(id, device, Queued)]
      ensures forall c :: c in old(rows) ==> c.id < id
    {
      id := if rows == [] then 1 else rows[|rows| - 1].id + 1;
      rows := rows + [Command(id, device, Queued)];
    }

    /** At most `BATCH` waiting commands of the device, lowest identifiers first. */
    method Select(device: int) returns (cmds: seq<nat>)
      ensures cmds == FirstOf(Waiting(rows, device), BATCH)
    {
      cmds := [];
      ghost var all := [];
      for i := 0 to |rows|
        invariant all == Waiting(rows[..i], device) && cmds == FirstOf(all, BATCH)
      {
        assert rows[..i + 1] == rows[..i] + [rows[i]];
        WaitingLast(rows[..i], rows[i], device);
        if rows[i].device == device && rows[i].progress == Queued {
          all := all + [rows[i].id];
          if |cmds| < BATCH {
            cmds := cmds + [rows[i].id];
          }
        }
      }
      assert rows[..|rows|] == rows;
    }

    /** One update by identifier. */
    method MarkSent(id: nat)
      modifies this
      ensures rows == Marked(old(rows), [id])
    {
      var was := rows;
      rows := seq(|was|, i requires 0 <= i < |was| => if was[i].id == id then was[i].(progress := Sent) else was[i]);
    }

    method Heartbeat(device: int, approved: bool) returns (cmds: seq<nat>)
      requires Valid()
      modifies this
      ensures Valid() && cmds == Batch(old(rows), device, approved) && rows == Marked(old(rows), cmds)
    {
      cmds := [];
      if approved {
        cmds := Select(device);
        for i := 0 to |cmds|
          invariant rows == Marked(old(rows), cmds[..i])
        {
          MarkedOneMore(old(rows), cmds[..i], cmds[i]);
          assert cmds[..i + 1] == cmds[..i] + [cmds[i]];
          MarkSent(cmds[i]);
        }
        assert cmds[..|cmds|] == cmds;
      }
      assert approved || Marked(rows, []) == rows;
      OrderedMarked(old(rows), cmds);
    }

    /** A result counts only for a command of the device that sends it. */
    method Report(device: int, id: nat, ok: bool)
      requires Valid()
      modifies this
      ensures Valid() && rows == Settled(old(rows), device, id, ok)
    {
      var was, progress := rows, if ok then Done else Failed;
      rows := seq(|was|, i requires 0 <= i < |was| =>
                    if was[i].id == id && was[i].device == device then was[i].(progress := progress) else was[i]);
      OrderedSettled(was, device, id, ok);
    }

    /** The commands of a deleted device go with it. */
    method Drop(device: int)
      requires Valid()
      modifies this
      ensures Valid() && rows == Dropped(old(rows), device)
    {
      var kept := [];
      for i := 0 to |rows|
        invariant rows == old(rows) && kept == Dropped(rows[..i], device)
      {
        assert rows[..i + 1] == rows[..i] + [rows[i]];
        DroppedLast(rows[..i], rows[i], device);
        if rows[i].device != device {
          kept := kept + [rows[i]];
        }
      }
      assert rows[..|rows|] == rows;
      OrderedDropped(rows, device);
      rows := kept;
    }
  }

  lemma MarkedOneMore(rows: seq<Command>, ids: seq<nat>, id: nat)
    ensures Marked(Marked(rows, ids), [id]) == Marked(rows, ids + [id])
  {
  }

  // ----- runs -----

  datatype Step =
    | Add(device: int)
    | Beat(device: int, approved: bool)
    | Result(device: int, id: nat, ok: bool)
    | Drop(device: int)

  /** The table and, for each device, what its heartbeats were given since it was last deleted. */
  datatype State = State(rows: seq<Command>, given: map<int, seq<nat>>)

  function Given(s: State, device: int): seq<nat> {
    if device in s.given then s.given[device] else []
  }

  function Next(s: State, step: Step): State {
    match step
    case Add(d) => s.(rows := s.rows + [Command(NextId(s.rows), d, Queued)])
    case Beat(d, approved) =>
      var cmds := Batch(s.rows, d, approved);
      State(Marked(s.rows, cmds), s.given[d := Given(s, d) + cmds])
    case Result(d, id, ok) => s.(rows := Settled(s.rows, d, id, ok))
    case Drop(d) => State(Dropped(s.rows, d), s.given[d := []])
  }

  function After(steps: seq<Step>): State {
    if steps == [] then State([], map[]) else Next(After(steps[..|steps| - 1]), steps[|steps| - 1])
  }

  predicate Increasing(ids: seq<nat>) {
    forall i, j :: 0 <= i < j < |ids| ==> ids[i] < ids[j]
  }

  predicate Stored(rows: seq<Command>, device: int, id: nat) {
    exists i :: 0 <= i < |rows| && rows[i].id == id && rows[i].device == device
  }

  /** Every command given to the device is still stored for it, and those that wait come later. */
  predicate GivenFirst(rows: seq<Command>, device: int, given: seq<nat>) {
    && Increasing(given)
    && (forall id :: id in given ==> Stored(rows, device, id))
    && (forall id, w :: id in given && w in Waiting(rows, device) ==> id < w)
  }

  ghost predicate Good(s: State) {
    Ordered(s.rows) && forall d: int :: GivenFirst(s.rows, d, Given(s, d))
  }

  // ----- what each step does to those that wait -----

  lemma {:induction false} WaitingIncreases(rows: seq<Command>, device: int)
    requires Ordered(rows)
    ensures Increasing(Waiting(rows, device))
  {
    if rows != [] {
      var init, c := rows[..|rows| - 1], rows[|rows| - 1];
      WaitingIncreases(init, device);
      var w := Waiting(init, device);
      forall k | 0 <= k < |w| ensures w[k] < c.id {
        WaitingIs(init, device, w[k]);
        var i :| 0 <= i < |init| && init[i] == Command(w[k], device, Queued);
        assert rows[i] == init[i];
      }
    }
  }

  /** Two devices do not wait for the same command. */
  lemma WaitsForOne(rows: seq<Command>, d: int, d': int, id: nat)
    requires Ordered(rows) && id in Waiting(rows, d) && id in Waiting(rows, d')
    ensures d == d'
  {
    WaitingIs(rows, d, id);
    WaitingIs(rows, d', id);
    var i :| 0 <= i < |rows| && rows[i] == Command(id, d, Queued);
    var j :| 0 <= j < |rows| && rows[j] == Command(id, d', Queued);
    assert i == j;
  }

  function Minus(ids: seq<nat>, gone: seq<nat>): seq<nat> {
    if ids == [] then []
    else
      var init, id := ids[..|ids| - 1], ids[|ids| - 1];
      if id in gone then Minus(init, gone) else Minus(init, gone) + [id]
  }

  lemma MinusLast(ids: seq<nat>, id: nat, gone: seq<nat>)
    ensures Minus(ids + [id], gone) == if id in gone then Minus(ids, gone) else Minus(ids, gone) + [id]
  {
    assert (ids + [id])[..|ids|] == ids;
  }

  lemma {:induction false} MinusNone(ids: seq<nat>, gone: seq<nat>)
    requires forall id :: id in ids ==> id !in gone
    ensures Minus(ids, gone) == ids
  {
    if ids != [] {
      MinusNone(ids[..|ids| - 1], gone);
    }
  }

  lemma {:induction false} MinusAll(ids: seq<nat>, gone: seq<nat>)
    requires forall id :: id in ids ==> id in gone
    ensures Minus(ids, gone) == []
  {
    if ids != [] {
      MinusAll(ids[..|ids| - 1], gone);
    }
  }

  /** Taking the first `n` away leaves the others. */
  lemma {:induction false} MinusPrefix(ids: seq<nat>, gone: seq<nat>, n: nat)
    requires Increasing(ids) && n <= |ids| && gone == ids[..n]
    ensures Minus(ids, gone) == ids[n..]
    decreases |ids|
  {
    if n == |ids| {
      MinusAll(ids, gone);
    } else {
      var m := |ids| - 1;
      assert ids[..m][..n] == gone;
      MinusPrefix(ids[..m], gone, n);
      assert ids[m] !in gone;
      assert ids[n..] == ids[..m][n..] + [ids[m]];
    }
  }

  lemma {:induction false} WaitingMarked(rows: seq<Command>, ids: seq<nat>, device: int)
    ensures Waiting(Marked(rows, ids), device) == Minus(Waiting(rows, device), ids)
  {
    if rows != [] {
      var init, c := rows[..|rows| - 1], rows[|rows| - 1];
      WaitingMarked(init, ids, device);
      assert Marked(rows, ids) == Marked(init, ids) + [MarkOne(c, ids)];
      WaitingLast(Marked(init, ids), MarkOne(c, ids), device);
      if c.device == device && c.progress == Queued {
        MinusLast(Waiting(init, device), c.id, ids);
      }
    }
  }

  lemma {:induction false} WaitingSettled(rows: seq<Command>, d: int, id: nat, ok: bool, device: int)
    ensures Waiting(Settled(rows, d, id, ok), device) ==
            if d == device then Minus(Waiting(rows, device), [id]) else Waiting(rows, device)
  {
    if rows != [] {
      var init, c := rows[..|rows| - 1], rows[|rows| - 1];
      WaitingSettled(init, d, id, ok, device);
      assert Settled(rows, d, id, ok) == Settled(init, d, id, ok) + [Settle(c, d, id, ok)];
      WaitingLast(Settled(init, d, id, ok), Settle(c, d, id, ok), device);
      if c.device == device && c.progress == Queued {
        MinusLast(Waiting(init, device), c.id, [id]);
      }
    }
  }

  lemma {:induction false} WaitingDropped(rows: seq<Command>, d: int, device: int)
    ensures Waiting(Dropped(rows, d), device) == if d == device then [] else Waiting(rows, device)
  {
    if rows != [] {
      var init, c := rows[..|rows| - 1], rows[|rows| - 1];
      WaitingDropped(init, d, device);
      if c.device != d {
        WaitingLast(Dropped(init, d), c, device);
      }
    }
  }

  /** After a heartbeat its device waits for what the batch left; the other devices wait as before. */
  lemma WaitingAfterBeat(rows: seq<Command>, d: int, approved: bool, device: int)
    requires Ordered(rows)
    ensures var w, cmds := Waiting(rows, device), Batch(rows, d, approved);
            Waiting(Marked(rows, cmds), device) == if d == device then w[|cmds|..] else w
  {
    var w, cmds := Waiting(rows, device), Batch(rows, d, approved);
    WaitingMarked(rows, cmds, device);
    if d == device {
      WaitingIncreases(rows, d);
      assert cmds == w[..|cmds|];
      MinusPrefix(w, cmds, |cmds|);
    } else {
      forall id | id in w ensures id !in cmds {
        if id in cmds {
          WaitsForOne(rows, d, device, id);
        }
      }
      MinusNone(w, cmds);
    }
  }

  // ----- the table stays ordered and the given commands stored -----

  lemma OrderedMarked(rows: seq<Command>, ids: seq<nat>)
    requires Ordered(rows)
    ensures Ordered(Marked(rows, ids))
    ensures forall d, id :: Stored(rows, d, id) ==> Stored(Marked(rows, ids), d, id)
  {
    forall d, id | Stored(rows, d, id) ensures Stored(Marked(rows, ids), d, id) {
      var i :| 0 <= i < |rows| && rows[i].id == id && rows[i].device == d;
      assert Marked(rows, ids)[i].id == id;
    }
  }

  lemma OrderedSettled(rows: seq<Command>, device: int, id: nat, ok: bool)
    requires Ordered(rows)
    ensures Ordered(Settled(rows, device, id, ok))
    ensures forall d, x :: Stored(rows, d, x) ==> Stored(Settled(rows, device, id, ok), d, x)
  {
    forall d, x | Stored(rows, d, x) ensures Stored(Settled(rows, device, id, ok), d, x) {
      var i :| 0 <= i < |rows| && rows[i].id == x && rows[i].device == d;
      assert Settled(rows, device, id, ok)[i].id == x;
    }
  }

  lemma {:induction false} DroppedHas(rows: seq<Command>, device: int, c: Command)
    ensures c in Dropped(rows, device) <==> c in rows && c.device != device
  {
    if rows != [] {
      var init, last := rows[..|rows| - 1], rows[|rows| - 1];
      DroppedHas(init, device, c);
      assert rows == init + [last];
    }
  }

  lemma {:induction false} OrderedDropped(rows: seq<Command>, device: int)
    requires Ordered(rows)
    ensures Ordered(Dropped(rows, device))
  {
    if rows != [] {
      var init, last := rows[..|rows| - 1], rows[|rows| - 1];
      OrderedDropped(init, device);
      forall c | c in Dropped(init, device) ensures c.id < last.id {
        DroppedHas(init, device, c);
      }
    }
  }

  lemma StoredDropped(rows: seq<Command>, device: int, d: int, id: nat)
    requires d != device && Stored(rows, d, id)
    ensures Stored(Dropped(rows, device), d, id)
  {
    var i :| 0 <= i < |rows| && rows[i].id == id && rows[i].device == d;
    DroppedHas(rows, device, rows[i]);
    var j :| 0 <= j < |Dropped(rows, device)| && Dropped(rows, device)[j] == rows[i];
  }

  lemma NextIdIsAbove(rows: seq<Command>, d: int)
    requires Ordered(rows)
    ensures forall c :: c in rows ==> c.id < NextId(rows)
    ensures Ordered(rows + [Command(NextId(rows), d, Queued)])
  {
  }

  lemma StoredIn(rows: seq<Command>, c: Command, device: int, id: nat)
    requires Stored(rows, device, id)
    ensures Stored(rows + [c], device, id)
    ensures exists x :: x in rows && x.id == id
  {
    var i :| 0 <= i < |rows| && rows[i].id == id && rows[i].device == device;
    assert (rows + [c])[i] == rows[i];
  }

  lemma AddKeeps(rows: seq<Command>, d: int, device: int, given: seq<nat>)
    requires Ordered(rows) && GivenFirst(rows, device, given)
    ensures var rows' := rows + [Command(NextId(rows), d, Queued)];
            Ordered(rows') && GivenFirst(rows', device, given)
  {
    var c := Command(NextId(rows), d, Queued);
    WaitingLast(rows, c, device);
    NextIdIsAbove(rows, d);
    forall id | id in given ensures Stored(rows + [c], device, id) && id < c.id {
      StoredIn(rows, c, device, id);
    }
  }

  /** A batch from the front of what waits comes after what was given and before what is left. */
  lemma BatchComesNext(given: seq<nat>, w: seq<nat>, n: nat)
    requires Increasing(given) && Increasing(w) && n <= |w|
    requires forall id, x :: id in given && x in w ==> id < x
    ensures Increasing(given + w[..n])
    ensures forall id, x :: id in given + w[..n] && x in w[n..] ==> id < x
  {
    var out := given + w[..n];
    forall i, j | 0 <= i < j < |out| ensures out[i] < out[j] {
      if i < |given| <= j {
        assert out[i] in given && out[j] in w;
      }
    }
    forall id, x | id in out && x in w[n..] ensures id < x {
      var j :| 0 <= j < |w[n..]| && w[n..][j] == x;
      assert x == w[n + j];
      var i :| 0 <= i < |out| && out[i] == id;
      if i < |given| {
        assert id in given && x in w;
      } else {
        assert id == w[i - |given|];
      }
    }
  }

  lemma BatchIsStored(rows: seq<Command>, device: int, approved: bool, id: nat)
    requires id in Batch(rows, device, approved)
    ensures Stored(rows, device, id)
  {
    WaitingIs(rows, device, id);
    var i :| 0 <= i < |rows| && rows[i] == Command(id, device, Queued);
  }

  lemma OwnBeatKeeps(rows: seq<Command>, device: int, approved: bool, given: seq<nat>)
    requires Ordered(rows) && GivenFirst(rows, device, given)
    ensures var cmds := Batch(rows, device, approved); GivenFirst(Marked(rows, cmds), device, given + cmds)
  {
    var w, cmds := Waiting(rows, device), Batch(rows, device, approved);
    WaitingIncreases(rows, device);
    WaitingAfterBeat(rows, device, approved, device);
    assert cmds == w[..|cmds|];
    BatchComesNext(given, w, |cmds|);
    OrderedMarked(rows, cmds);
    forall id | id in given + cmds ensures Stored(Marked(rows, cmds), device, id) {
      if id in cmds {
        BatchIsStored(rows, device, approved, id);
      }
    }
  }

  lemma BeatKeeps(rows: seq<Command>, d: int, approved: bool, device: int, given: seq<nat>)
    requires Ordered(rows) && GivenFirst(rows, device, given)
    ensures var cmds := Batch(rows, d, approved);
            && Ordered(Marked(rows, cmds))
            && GivenFirst(Marked(rows, cmds), device, if d == device then given + cmds else given)
  {
    OrderedMarked(rows, Batch(rows, d, approved));
    if d == device {
      OwnBeatKeeps(rows, device, approved, given);
    } else {
      WaitingAfterBeat(rows, d, approved, device);
    }
  }

  lemma ResultKeeps(rows: seq<Command>, d: int, id: nat, ok: bool, device: int, given: seq<nat>)
    requires Ordered(rows) && GivenFirst(rows, device, given)
    ensures Ordered(Settled(rows, d, id, ok)) && GivenFirst(Settled(rows, d, id, ok), device, given)
  {
    OrderedSettled(rows, d, id, ok);
    WaitingSettled(rows, d, id, ok, device);
    forall x | x in Minus(Waiting(rows, device), [id]) ensures x in Waiting(rows, device) {
      MinusIn(Waiting(rows, device), [id], x);
    }
  }

  lemma {:induction false} MinusIn(ids: seq<nat>, gone: seq<nat>, id: nat)
    ensures id in Minus(ids, gone) <==> id in ids && id !in gone
  {
    if ids != [] {
      MinusIn(ids[..|ids| - 1], gone, id);
      assert ids == ids[..|ids| - 1] + [ids[|ids| - 1]];
    }
  }

  lemma DropKeeps(rows: seq<Command>, d: int, device: int, given: seq<nat>)
    requires Ordered(rows) && GivenFirst(rows, device, given)
    ensures Ordered(Dropped(rows, d)) && GivenFirst(Dropped(rows, d), device, if d == device then [] else given)
  {
    OrderedDropped(rows, d);
    WaitingDropped(rows, d, device);
    if d != device {
      forall id | id in given ensures Stored(Dropped(rows, d), device, id) {
        StoredDropped(rows, d, device, id);
      }
    }
  }

  lemma StepKeeps(s: State, step: Step)
    requires Good(s)
    ensures Good(Next(s, step))
  {
    var s' := Next(s, step);
    forall device: int ensures Ordered(s'.rows) && GivenFirst(s'.rows, device, Given(s', device)) {
      var given := Given(s, device);
      assert GivenFirst(s.rows, device, given);
      match step
      case Add(d) => AddKeeps(s.rows, d, device, given);
      case Beat(d, approved) => BeatKeeps(s.rows, d, approved, device, given);
      case Result(d, id, ok) => ResultKeeps(s.rows, d, id, ok, device, given);
      case Drop(d) => DropKeeps(s.rows, d, device, given);
    }
    assert GivenFirst(s'.rows, 0, Given(s', 0));
  }

  lemma {:induction false} AlwaysGood(steps: seq<Step>)
    ensures Good(After(steps))
    decreases steps
  {
    if steps != [] {
      AlwaysGood(steps[..|steps| - 1]);
      StepKeeps(After(steps[..|steps| - 1]), steps[|steps| - 1]);
    }
  }

  /** In every run, what the heartbeats of a device are given, one after the other, strictly increases: no
      command goes out twice, and each batch comes after all those before. */
  lemma GivenOnceInOrder(steps: seq<Step>, device: int)
    ensures Increasing(Given(After(steps), device))
  {
    AlwaysGood(steps);
    assert GivenFirst(After(steps).rows, device, Given(After(steps), device));
  }

  /** A heartbeat gives out only queued commands of its own device, at most a batch, and none unless the
      device is approved. */
  lemma BatchIsOwn(rows: seq<Command>, device: int, approved: bool, id: nat)
    ensures |Batch(rows, device, approved)| <= BATCH
    ensures id in Batch(rows, device, approved) ==> approved && Waits(rows, device, id)
  {
    WaitingIs(rows, device, id);
  }

  // ----- draining -----

  function RunFrom(s: State, steps: seq<Step>): State
    decreases steps
  {
    if steps == [] then s else RunFrom(Next(s, steps[0]), steps[1..])
  }

  /** The step neither adds to what the device waits for nor takes from it but by a heartbeat. */
  predicate Calm(s: State, step: Step, device: int) {
    match step
    case Add(d) => d != device
    case Beat(_, _) => true
    case Result(d, id, _) => d != device || id !in Waiting(s.rows, device)
    case Drop(d) => d != device
  }

  predicate CalmRun(s: State, steps: seq<Step>, device: int)
    decreases steps
  {
    steps == [] || (Calm(s, steps[0], device) && CalmRun(Next(s, steps[0]), steps[1..], device))
  }

  predicate Served(step: Step, device: int) {
    step.Beat? && step.device == device && step.approved
  }

  /** The number of heartbeats of the device while approved. */
  function Beats(steps: seq<Step>, device: int): nat {
    if steps == [] then 0 else (if Served(steps[0], device) then 1 else 0) + Beats(steps[1..], device)
  }

  function Min(a: nat, b: nat): nat {
    if a <= b then a else b
  }

  /** Between the two states the device was given the first `n` commands it waited for, and no other. */
  predicate Handed(s: State, s': State, device: int, n: nat) {
    var w := Waiting(s.rows, device);
    n <= |w| && Waiting(s'.rows, device) == w[n..] && Given(s', device) == Given(s, device) + w[..n]
  }

  lemma HandedNone(s: State, s': State, device: int)
    requires Waiting(s'.rows, device) == Waiting(s.rows, device) && Given(s', device) == Given(s, device)
    ensures Handed(s, s', device, 0)
  {
  }

  lemma HandedTwice(s: State, s': State, s'': State, device: int, n: nat, m: nat)
    requires Handed(s, s', device, n) && Handed(s', s'', device, m)
    ensures Handed(s, s'', device, n + m)
  {
    var w := Waiting(s.rows, device);
    assert w[n..][m..] == w[n + m..] && w[..n] + w[n..][..m] == w[..n + m];
    assert Given(s, device) + w[..n] + w[n..][..m] == Given(s, device) + (w[..n] + w[n..][..m]);
  }

  function Share(step: Step, device: int, left: nat): nat {
    if Served(step, device) then Min(BATCH, left) else 0
  }

  lemma CalmBeat(s: State, d: int, approved: bool, device: int)
    requires Good(s)
    ensures var step := Beat(d, approved);
            Handed(s, Next(s, step), device, Share(step, device, |Waiting(s.rows, device)|))
  {
    WaitingAfterBeat(s.rows, d, approved, device);
    NothingMore(Given(s, device));
    if !Served(Beat(d, approved), device) {
      HandedNone(s, Next(s, Beat(d, approved)), device);
    }
  }

  lemma CalmStep(s: State, step: Step, device: int)
    requires Good(s) && Calm(s, step, device)
    ensures Handed(s, Next(s, step), device, Share(step, device, |Waiting(s.rows, device)|))
  {
    match step
    case Add(d) =>
      WaitingLast(s.rows, Command(NextId(s.rows), d, Queued), device);
      HandedNone(s, Next(s, step), device);
    case Beat(d, approved) => CalmBeat(s, d, approved, device);
    case Result(d, id, ok) =>
      WaitingSettled(s.rows, d, id, ok, device);
      if d == device {
        MinusNone(Waiting(s.rows, device), [id]);
      }
      HandedNone(s, Next(s, step), device);
    case Drop(d) =>
      WaitingDropped(s.rows, d, device);
      HandedNone(s, Next(s, step), device);
  }

  /** Whatever happens to the other devices: `k` heartbeats of an approved device give out the first `k`
      batches of what waited, in order, and leave the rest waiting. */
  lemma {:induction false} Drains(s: State, steps: seq<Step>, device: int)
    requires Good(s) && CalmRun(s, steps, device)
    ensures Handed(s, RunFrom(s, steps), device, Min(BATCH * Beats(steps, device), |Waiting(s.rows, device)|))
    decreases steps
  {
    if steps == [] {
      HandedNone(s, s, device);
    } else {
      var next, w := Next(s, steps[0]), Waiting(s.rows, device);
      CalmStep(s, steps[0], device);
      StepKeeps(s, steps[0]);
      Drains(next, steps[1..], device);
      var n := Share(steps[0], device, |w|);
      HandedTwice(s, next, RunFrom(s, steps), device, n, Min(BATCH * Beats(steps[1..], device), |w| - n));
    }
  }

  /** A queue of `n` commands is empty after exactly the heartbeats that `n` commands in batches take. */
  lemma DrainedIff(s: State, steps: seq<Step>, device: int)
    requires Good(s) && CalmRun(s, steps, device)
    ensures var n := |Waiting(s.rows, device)|;
            Waiting(RunFrom(s, steps).rows, device) == [] <==> Beats(steps, device) >= (n + BATCH - 1) / BATCH
  {
    Drains(s, steps, device);
  }

  // ----- how a command ends -----

  /** What the device last reported of the command, since the command was made. */
  function Verdict(steps: seq<Step>, device: int, id: nat): Option<bool> {
    if steps == [] then None
    else
      var init := steps[..|steps| - 1];
      match steps[|steps| - 1]
      case Result(d, i, ok) => if d == device && i == id then Some(ok) else Verdict(init, device, id)
      case Add(_) => if NextId(After(init).rows) == id then None else Verdict(init, device, id)
      case Drop(d) => if d == device then None else Verdict(init, device, id)
      case Beat(_, _) => Verdict(init, device, id)
  }

  /** The progress that a verdict and what was given out call for. */
  function Called(verdict: Option<bool>, given: bool): Progress {
    match verdict
    case Some(ok) => if ok then Done else Failed
    case None => if given then Sent else Queued
  }

  /** Identifiers are unique. */
  lemma SameCommand(rows: seq<Command>, c: Command, c': Command)
    requires Ordered(rows) && c in rows && c' in rows && c.id == c'.id
    ensures c == c'
  {
    var i :| 0 <= i < |rows| && rows[i] == c;
    var j :| 0 <= j < |rows| && rows[j] == c';
    assert i == j;
  }

  /** A new command was not given out. */
  lemma NewIsNotGiven(s: State, device: int)
    requires Good(s)
    ensures NextId(s.rows) !in Given(s, device)
  {
    assert GivenFirst(s.rows, device, Given(s, device));
    forall id | id in Given(s, device) ensures id < NextId(s.rows) {
      StoredIsBelow(s.rows, device, id);
    }
  }

  lemma StoredIsBelow(rows: seq<Command>, device: int, id: nat)
    requires Ordered(rows) && Stored(rows, device, id)
    ensures id < NextId(rows)
  {
    NextIdIsAbove(rows, device);
    var i :| 0 <= i < |rows| && rows[i].id == id;
    assert rows[i] in rows;
  }

  /** What becomes of a row in a step, as its identifier tells. */
  lemma RowBefore(s: State, step: Step, c: Command) returns (was: Option<Command>)
    requires Good(s) && c in Next(s, step).rows
    ensures was.None? ==> step.Add? && c == Command(NextId(s.rows), step.device, Queued)
    ensures was.Some? ==>
      && was.value in s.rows && was.value.id == c.id && was.value.device == c.device
      && (step.Add? ==> c == was.value && c.id != NextId(s.rows))
      && (step.Drop? ==> c == was.value && c.device != step.device)
      && (step.Result? ==> c == Settle(was.value, step.device, step.id, step.ok))
      && (step.Beat? ==> c == MarkOne(was.value, Batch(s.rows, step.device, step.approved)))
  {
    var rows := Next(s, step).rows;
    var i :| 0 <= i < |rows| && rows[i] == c;
    match step
    case Add(d) =>
      NextIdIsAbove(s.rows, d);
      was := if i < |s.rows| then Some(s.rows[i]) else None;
    case Drop(d) =>
      DroppedHas(s.rows, d, c);
      was := Some(c);
    case Result(_, _, _) =>
      was := Some(s.rows[i]);
    case Beat(_, _) =>
      was := Some(s.rows[i]);
  }

  lemma BeatProgress(s: State, d: int, approved: bool, was: Command, verdict: Option<bool>)
    requires Good(s) && was in s.rows && was.progress == Called(verdict, was.id in Given(s, was.device))
    ensures var cmds := Batch(s.rows, d, approved);
            MarkOne(was, cmds).progress == Called(verdict, was.id in Given(Next(s, Beat(d, approved)), was.device))
  {
    var cmds := Batch(s.rows, d, approved);
    if was.id in cmds {
      BatchIsOwn(s.rows, d, approved, was.id);
      SameCommand(s.rows, was, Command(was.id, d, Queued));
      assert was.id in Given(s, d) + cmds;
    }
  }

  /** In every run, a command is done or failed as its device last reported of it, and else sent or queued as it
      was given out or not. */
  lemma {:induction false} CommandEnds(steps: seq<Step>, c: Command)
    requires c in After(steps).rows
    ensures c.progress == Called(Verdict(steps, c.device, c.id), c.id in Given(After(steps), c.device))
    decreases |steps|
  {
    var init, step := steps[..|steps| - 1], steps[|steps| - 1];
    var s := After(init);
    AlwaysGood(init);
    var was := RowBefore(s, step, c);
    if was.None? {
      NewIsNotGiven(s, c.device);
    } else {
      CommandEnds(init, was.value);
      if step.Beat? {
        BeatProgress(s, step.device, step.approved, was.value, Verdict(init, c.device, c.id));
      }
    }
  }

  /** So it ends well exactly when the last report was ok. */
  lemma DoneIff(steps: seq<Step>, c: Command)
    requires c in After(steps).rows
    ensures c.progress == Done <==> Verdict(steps, c.device, c.id) == Some(true)
    ensures c.progress == Failed <==> Verdict(steps, c.device, c.id) == Some(false)
  {
    CommandEnds(steps, c);
  }
}
