/** The presence tracker shared by heartbeats and the offline watcher (hub/dashboard/agentapi.go:300-383).
    Both update `lastState` in critical sections of one mutex; an event belongs to the section that decides
    it. Times are not part of the model: whether a device counts as online when a section starts is an
    input. */
module Presence {
  import opened Common

  datatype DeviceState = DeviceState(online: bool, subs: map<string, bool>)

  datatype Report = Report(name: string, reachable: bool)

  datatype Event =
    | DeviceOnline(id: int)
    | DeviceOffline(id: int)
    | SubDown(id: int, name: string)
    | SubUp(id: int, name: string)

  // ----- what one section does -----

  /** What a heartbeat says of each sub-device: of two reports under one name the later counts. */
  function Reported(reports: seq<Report>): map<string, bool> {
    if reports == [] then map[]
    else
      var last := reports[|reports| - 1];
      Reported(reports[..|reports| - 1])[last.name := last.reachable]
  }

  function Find<K, V>(m: map<K, V>, k: K): Option<V> {
    if k in m then Some(m[k]) else None
  }

  /** What is known of the sub-devices of a device. */
  function Subs(last: map<int, DeviceState>, id: int): map<string, bool> {
    if id in last then last[id].subs else map[]
  }

  predicate IsDown(report: Option<bool>) {
    report.Some? && !report.value
  }

  /** The event for a sub-device reported `now` when `before` was known of it: going down counts from
      nothing known, coming back only from a known failure. */
  function Change(before: Option<bool>, now: Option<bool>): Option<bool> {
    if IsDown(now) && !IsDown(before) then Some(false)
    else if now.Some? && now.value && IsDown(before) then Some(true)
    else None
  }

  function SubEvent(id: int, name: string, up: bool): Event {
    if up then SubUp(id, name) else SubDown(id, name)
  }

  function OnlineEvents(last: map<int, DeviceState>, id: int, wasOnline: bool): seq<Event> {
    if id in last then (if last[id].online then [] else [DeviceOnline(id)])
    else if wasOnline then [] else [DeviceOnline(id)]
  }

  /** Whether the event is an up or a down of the sub-device. */
  function Edge(id: int, name: string, e: Event): seq<bool> {
    if e == SubUp(id, name) then [true] else if e == SubDown(id, name) then [false] else []
  }

  /** Whether the event is a passage online or offline of the device. */
  function Switch(id: int, e: Event): seq<bool> {
    if e == DeviceOnline(id) then [true] else if e == DeviceOffline(id) then [false] else []
  }

  /** The ups and downs of one sub-device in a log, in order. */
  function Edges(id: int, name: string, log: seq<Event>): seq<bool> {
    if log == [] then [] else Edges(id, name, log[..|log| - 1]) + Edge(id, name, log[|log| - 1])
  }

  /** The passages online and offline of one device in a log, in order. */
  function Switches(id: int, log: seq<Event>): seq<bool> {
    if log == [] then [] else Switches(id, log[..|log| - 1]) + Switch(id, log[|log| - 1])
  }

  function Listed<T>(o: Option<T>): seq<T> {
    if o.Some? then [o.value] else []
  }

  ghost predicate AllOf(id: int, es: seq<Event>) {
    forall i :: 0 <= i < |es| ==> (es[i].SubDown? || es[i].SubUp?) && es[i].id == id
  }

  /** `es` holds the changes of the sub-devices of `id`, each once, in any order: the server ranges over a
      map. */
  ghost predicate Changes(id: int, before: map<string, bool>, now: map<string, bool>, es: seq<Event>) {
    && AllOf(id, es)
    && forall name :: Edges(id, name, es) == Listed(Change(Find(before, name), Find(now, name)))
  }

  function ChangeEvents(id: int, name: string, c: Option<bool>): seq<Event> {
    if c.Some? then [SubEvent(id, name, c.value)] else []
  }

  /** The changes logged so far: all but those of the names `left`. */
  ghost predicate LoggedBut(id: int, before: map<string, bool>, now: map<string, bool>, left: set<string>,
                            es: seq<Event>, name: string)
  {
    Edges(id, name, es) == if name in left then [] else Listed(Change(Find(before, name), Find(now, name)))
  }

  lemma SplitLast<T>(a: seq<T>, b: seq<T>)
    requires b != []
    ensures a + b == a + b[..|b| - 1] + [b[|b| - 1]]
  {
  }

  lemma Associates<T>(a: seq<T>, b: seq<T>, c: seq<T>)
    ensures a + b + c == a + (b + c)
  {
  }

  lemma ChangeEdges(id: int, name: string, c: Option<bool>, es: seq<Event>, other: string)
    ensures Edges(id, other, es + ChangeEvents(id, name, c)) ==
            Edges(id, other, es) + (if other == name then Listed(c) else [])
  {
    if c.Some? {
      EdgesLast(id, other, es, SubEvent(id, name, c.value));
    } else {
      assert es + [] == es && Edges(id, other, es) + [] == Edges(id, other, es);
    }
  }

  lemma LogOne(id: int, before: map<string, bool>, now: map<string, bool>, left: set<string>, es: seq<Event>,
               name: string, other: string)
    requires name in left && LoggedBut(id, before, now, left, es, other)
    ensures LoggedBut(id, before, now, left - {name},
                      es + ChangeEvents(id, name, Change(Find(before, name), Find(now, name))), other)
  {
    var c := Change(Find(before, name), Find(now, name));
    ChangeEdges(id, name, c, es, other);
    assert [] + Listed(c) == Listed(c) && Edges(id, other, es) + [] == Edges(id, other, es);
  }

  lemma EdgesLast(id: int, name: string, log: seq<Event>, e: Event)
    ensures Edges(id, name, log + [e]) == Edges(id, name, log) + Edge(id, name, e)
  {
    assert (log + [e])[..|log|] == log;
  }

  lemma {:induction false} EdgesAppend(id: int, name: string, a: seq<Event>, b: seq<Event>)
    ensures Edges(id, name, a + b) == Edges(id, name, a) + Edges(id, name, b)
  {
    if b == [] {
      NothingMore(a);
      NothingMore(Edges(id, name, a));
    } else {
      var init, e := b[..|b| - 1], b[|b| - 1];
      EdgesAppend(id, name, a, init);
      EdgesLast(id, name, a + init, e);
      SplitLast(a, b);
      Associates(Edges(id, name, a), Edges(id, name, init), Edge(id, name, e));
    }
  }

  lemma {:induction false} SwitchesAppend(id: int, a: seq<Event>, b: seq<Event>)
    ensures Switches(id, a + b) == Switches(id, a) + Switches(id, b)
  {
    if b == [] {
      NothingMore(a);
      NothingMore(Switches(id, a));
    } else {
      var init, e := b[..|b| - 1], b[|b| - 1];
      SwitchesAppend(id, a, init);
      OneSwitch(id, a + init, e);
      SplitLast(a, b);
      Associates(Switches(id, a), Switches(id, init), Switch(id, e));
    }
  }

  // ----- the tracker -----

  class Tracker {
    var lastState: map<int, DeviceState>
    var log: seq<Event>

    constructor ()
      ensures lastState == map[] && log == []
    {
      lastState, log := map[], [];
    }

    static method ReadReports(reports: seq<Report>) returns (subs: map<string, bool>)
      ensures subs == Reported(reports)
    {
      subs := map[];
      for i := 0 to |reports|
        invariant subs == Reported(reports[..i])
      {
        assert reports[..i + 1][..i] == reports[..i];
        subs := subs[reports[i].name := reports[i].reachable];
      }
      assert reports[..|reports|] == reports;
    }

    /** Logs the changes; the order of the names is arbitrary. */
    static method LogChanges(id: int, before: map<string, bool>, now: map<string, bool>) returns (es: seq<Event>)
      ensures Changes(id, before, now, es)
    {
      es := [];
      var left := now.Keys;
      while left != {}
        invariant left <= now.Keys && AllOf(id, es)
        invariant forall name :: LoggedBut(id, before, now, left, es, name)
        decreases left
      {
        var name :| name in left;
        var ok := now[name];
        ghost var was, were := es, left;
        left := left - {name};
        if !ok && (name !in before || before[name]) {
          es := es + [SubDown(id, name)];
        } else if ok && name in before && !before[name] {
          es := es + [SubUp(id, name)];
        }
        assert es == was + ChangeEvents(id, name, Change(Find(before, name), Find(now, name)));
        forall other ensures LoggedBut(id, before, now, left, es, other) {
          LogOne(id, before, now, were, was, name, other);
        }
      }
      forall name ensures Edges(id, name, es) == Listed(Change(Find(before, name), Find(now, name))) {
        assert LoggedBut(id, before, now, left, es, name);
      }
    }

    method TrackTransitions(id: int, wasOnline: bool, reports: seq<Report>)
      modifies this
      ensures Beats(old(lastState), old(log), lastState, log, id, wasOnline, reports)
    {
      var cur := ReadReports(reports);
      log := log + OnlineEvents(lastState, id, wasOnline);
      var before := Subs(lastState, id);
      var es := LogChanges(id, before, cur);
      log := log + es;
      lastState := lastState[id := DeviceState(true, cur)];
    }

    /** The section of the watcher for one device; `online` may be out of date. */
    method Watch(id: int, online: bool)
      modifies this
      ensures Watches(old(lastState), old(log), lastState, log, id, online)
    {
      if id in lastState {
        if !online && lastState[id].online {
          lastState := lastState[id := lastState[id].(online := false)];
          log := log + [DeviceOffline(id)];
        }
      } else {
        lastState := lastState[id := DeviceState(online, map[])];
      }
    }
  }

  /** One heartbeat section. */
  ghost predicate Beats(last: map<int, DeviceState>, log: seq<Event>, last': map<int, DeviceState>, log': seq<Event>,
                        id: int, wasOnline: bool, reports: seq<Report>)
  {
    && last' == last[id := DeviceState(true, Reported(reports))]
    && exists es :: log' == log + OnlineEvents(last, id, wasOnline) + es &&
                    Changes(id, Subs(last, id), Reported(reports), es)
  }

  /** One watcher section: only the passage offline of a device known to be online is an event, and what is
      known of its sub-devices stays. */
  ghost predicate Watches(last: map<int, DeviceState>, log: seq<Event>, last': map<int, DeviceState>, log': seq<Event>,
                          id: int, online: bool)
  {
    var goesOff := id in last && last[id].online && !online;
    && log' == log + (if goesOff then [DeviceOffline(id)] else [])
    && last' == if id !in last then last[id := DeviceState(online, map[])]
                else if goesOff then last[id := last[id].(online := false)] else last
  }

  // ----- runs -----

  /** Devices are known by the number of their row, which a later device may have again. */
  datatype Step =
    | Beat(id: int, wasOnline: bool, reports: seq<Report>)
    | Watch(id: int, online: bool)
    | Delete(id: int)

  datatype State = State(last: map<int, DeviceState>, log: seq<Event>)

  ghost predicate Takes(step: Step, s: State, s': State) {
    match step
    case Beat(id, wasOnline, reports) => Beats(s.last, s.log, s'.last, s'.log, id, wasOnline, reports)
    case Watch(id, online) => Watches(s.last, s.log, s'.last, s'.log, id, online)
    case Delete(_) => s' == s
  }

  /** A run of one server lifetime through these sections, from an empty tracker. */
  ghost predicate Run(steps: seq<Step>, states: seq<State>) {
    && |states| == |steps| + 1 && states[0] == State(map[], [])
    && forall i :: 0 <= i < |steps| ==> Takes(steps[i], states[i], states[i + 1])
  }

  predicate Alternates(bs: seq<bool>) {
    forall i :: 0 <= i < |bs| - 1 ==> bs[i] != bs[i + 1]
  }

  /** The passages alternate, and the last one is what the tracker believes. */
  predicate DeviceInStep(id: int, s: State) {
    var bs := Switches(id, s.log);
    Alternates(bs) && (bs != [] ==> id in s.last && s.last[id].online == bs[|bs| - 1])
  }

  lemma {:induction false} NoSwitches(id: int, es: seq<Event>)
    requires forall i :: 0 <= i < |es| ==> es[i].SubDown? || es[i].SubUp?
    ensures Switches(id, es) == []
  {
    if es != [] {
      NoSwitches(id, es[..|es| - 1]);
    }
  }

  lemma OneSwitch(id: int, log: seq<Event>, e: Event)
    ensures Switches(id, log + [e]) == Switches(id, log) + Switch(id, e)
  {
    assert (log + [e])[..|log|] == log;
  }

  lemma BeatSwitches(s: State, s': State, id: int, wasOnline: bool, reports: seq<Report>, other: int)
    requires Beats(s.last, s.log, s'.last, s'.log, id, wasOnline, reports)
    ensures Switches(other, s'.log) == Switches(other, s.log) + Switches(other, OnlineEvents(s.last, id, wasOnline))
  {
    var es :| s'.log == s.log + OnlineEvents(s.last, id, wasOnline) + es &&
              Changes(id, Subs(s.last, id), Reported(reports), es);
    SwitchesAppend(other, s.log + OnlineEvents(s.last, id, wasOnline), es);
    SwitchesAppend(other, s.log, OnlineEvents(s.last, id, wasOnline));
    NoSwitches(other, es);
  }

  lemma SwitchKeepsInStep(id: int, s: State, s': State, b: bool)
    requires DeviceInStep(id, s) && Switches(id, s'.log) == Switches(id, s.log) + [b]
    requires id in s'.last && s'.last[id].online == b && (Switches(id, s.log) != [] ==> s.last[id].online != b)
    ensures DeviceInStep(id, s')
  {
    var bs, c := Switches(id, s.log), Switches(id, s'.log);
    forall i | 0 <= i < |c| - 1 ensures c[i] != c[i + 1] {
      assert c[i] == bs[i];
    }
  }

  lemma SameSwitchesKeepInStep(id: int, s: State, s': State)
    requires DeviceInStep(id, s) && Switches(id, s'.log) == Switches(id, s.log)
    requires id in s.last ==> id in s'.last && s'.last[id].online == s.last[id].online
    ensures DeviceInStep(id, s')
  {
  }

  lemma OnlineSwitch(last: map<int, DeviceState>, id: int, wasOnline: bool, other: int)
    ensures var on := OnlineEvents(last, id, wasOnline);
            Switches(other, on) == if other == id && on != [] then [true] else []
  {
    OneSwitch(other, [], DeviceOnline(id));
    assert [] + [DeviceOnline(id)] == [DeviceOnline(id)];
  }

  lemma OnlineKeepsInStep(s: State, s': State, id: int, wasOnline: bool, now: DeviceState, other: int)
    requires DeviceInStep(other, s) && s'.last == s.last[id := now] && now.online
    requires Switches(other, s'.log) ==
             Switches(other, s.log) + if other == id && OnlineEvents(s.last, id, wasOnline) != [] then [true] else []
    ensures DeviceInStep(other, s')
  {
    if other == id && OnlineEvents(s.last, id, wasOnline) != [] {
      SwitchKeepsInStep(id, s, s', true);
    } else {
      NothingMore(Switches(other, s.log));
      SameSwitchesKeepInStep(other, s, s');
    }
  }

  lemma BeatKeepsInStep(s: State, s': State, id: int, wasOnline: bool, reports: seq<Report>, other: int)
    requires Beats(s.last, s.log, s'.last, s'.log, id, wasOnline, reports) && DeviceInStep(other, s)
    ensures DeviceInStep(other, s')
  {
    BeatSwitches(s, s', id, wasOnline, reports, other);
    OnlineSwitch(s.last, id, wasOnline, other);
    NothingMore(Switches(other, s.log));
    OnlineKeepsInStep(s, s', id, wasOnline, DeviceState(true, Reported(reports)), other);
  }

  lemma WatchSwitches(s: State, s': State, id: int, online: bool, other: int)
    requires Watches(s.last, s.log, s'.last, s'.log, id, online)
    ensures Switches(other, s'.log) ==
            Switches(other, s.log) + (if other == id && s'.log != s.log then [false] else [])
  {
    OneSwitch(other, s.log, DeviceOffline(id));
    NothingMore(s.log);
    NothingMore(Switches(other, s.log));
  }

  lemma WatchKeepsInStep(s: State, s': State, id: int, online: bool, other: int)
    requires Watches(s.last, s.log, s'.last, s'.log, id, online) && DeviceInStep(other, s)
    ensures DeviceInStep(other, s')
  {
    hide Switches, Alternates;
    WatchSwitches(s, s', id, online, other);
    NothingMore(s.log);
    NothingMore(Switches(other, s.log));
    if other == id && s'.log != s.log {
      SwitchKeepsInStep(id, s, s', false);
    } else {
      SameSwitchesKeepInStep(other, s, s');
    }
  }

  /** Presence: whatever the interleaving of heartbeats and watcher, at every point of a run the passages
      online and offline of a device strictly alternate and the last one agrees with the tracker. */
  lemma {:induction false} PresenceAlternates(steps: seq<Step>, states: seq<State>, n: nat, id: int)
    requires Run(steps, states) && n <= |steps|
    ensures DeviceInStep(id, states[n])
  {
    if n > 0 {
      PresenceAlternates(steps, states, n - 1, id);
      var s, s' := states[n - 1], states[n];
      assert Takes(steps[n - 1], s, s');
      match steps[n - 1]
      case Beat(d, wasOnline, reports) => BeatKeepsInStep(s, s', d, wasOnline, reports, id);
      case Watch(d, online) => WatchKeepsInStep(s, s', d, online, id);
      case Delete(_) =>
    }
  }

  // ----- what the tracker knows -----

  /** The report stands under its name: no later one has it. */
  predicate LastUnder(reports: seq<Report>, i: int, name: string) {
    0 <= i < |reports| && reports[i].name == name && forall j :: i < j < |reports| ==> reports[j].name != name
  }

  /** A heartbeat says of a sub-device what its last report under that name says, and nothing without one. */
  lemma {:induction false} ReportedIs(reports: seq<Report>, name: string)
    ensures name !in Reported(reports) ==> forall i :: 0 <= i < |reports| ==> reports[i].name != name
    ensures name in Reported(reports) ==>
              exists i :: LastUnder(reports, i, name) && Reported(reports)[name] == reports[i].reachable
  {
    if reports != [] {
      var init, last := reports[..|reports| - 1], reports[|reports| - 1];
      ReportedIs(init, name);
      if last.name == name {
        assert LastUnder(reports, |reports| - 1, name);
      } else if name in Reported(init) {
        var i :| LastUnder(init, i, name) && Reported(init)[name] == init[i].reachable;
        assert LastUnder(reports, i, name) && reports[i] == init[i];
      }
    }
  }

  /** A section that finds the device online: a heartbeat, or the watcher when it looks at it first. */
  predicate SeenOnline(steps: seq<Step>, i: int, id: int) {
    && 0 <= i < |steps|
    && match steps[i]
       case Beat(d, _, _) => d == id
       case Watch(d, online) => d == id && online && Untracked(steps, i, id)
       case Delete(_) => false
  }

  /** Before step `i` no section was about the device. */
  predicate Untracked(steps: seq<Step>, i: int, id: int) {
    forall j :: 0 <= j < i && j < |steps| ==> steps[j].Delete? || steps[j].id != id
  }

  /** Since step `i` the watcher has not found the device offline. */
  predicate NotFoundOffline(steps: seq<Step>, i: int, n: nat, id: int) {
    forall j :: i < j < n && 0 <= j < |steps| ==> steps[j] != Watch(id, false)
  }

  ghost predicate HeldOnline(steps: seq<Step>, n: nat, id: int) {
    exists i :: i < n && SeenOnline(steps, i, id) && NotFoundOffline(steps, i, n, id)
  }

  lemma HeldNext(steps: seq<Step>, n: nat, id: int)
    requires 0 < n <= |steps|
    ensures HeldOnline(steps, n, id) <==>
            SeenOnline(steps, n - 1, id) || (HeldOnline(steps, n - 1, id) && steps[n - 1] != Watch(id, false))
  {
    if SeenOnline(steps, n - 1, id) {
      assert NotFoundOffline(steps, n - 1, n, id);
    }
    if HeldOnline(steps, n - 1, id) && steps[n - 1] != Watch(id, false) {
      var i :| i < n - 1 && SeenOnline(steps, i, id) && NotFoundOffline(steps, i, n - 1, id);
      assert NotFoundOffline(steps, i, n, id);
    }
    if HeldOnline(steps, n, id) && !SeenOnline(steps, n - 1, id) {
      var i :| i < n && SeenOnline(steps, i, id) && NotFoundOffline(steps, i, n, id);
      assert NotFoundOffline(steps, i, n - 1, id);
    }
  }

  /** The tracker knows a device exactly when some section was about it, and holds it for online exactly when a
      section found it online and the watcher has not found it offline since. */
  lemma {:induction false} KnownOnlineIff(steps: seq<Step>, states: seq<State>, n: nat, id: int)
    requires Run(steps, states) && n <= |steps|
    ensures id in states[n].last <==> !Untracked(steps, n, id)
    ensures id in states[n].last && states[n].last[id].online <==> HeldOnline(steps, n, id)
  {
    if n > 0 {
      KnownOnlineIff(steps, states, n - 1, id);
      HeldNext(steps, n, id);
      assert Takes(steps[n - 1], states[n - 1], states[n]);
      assert Untracked(steps, n, id) <==>
             Untracked(steps, n - 1, id) && (steps[n - 1].Delete? || steps[n - 1].id != id);
    }
  }

  /** So a heartbeat announces the device exactly when it is not held for online, or for a device never seen
      before, when its row did not count as online; and the watcher announces that it went offline exactly when
      it was held for online and is found offline. */
  lemma AnnouncedIff(steps: seq<Step>, states: seq<State>, n: nat, id: int)
    requires Run(steps, states) && n < |steps|
    ensures var more := match steps[n]
                        case Beat(d, wasOnline, _) =>
                          if d == id && !HeldOnline(steps, n, id) && (Untracked(steps, n, id) ==> !wasOnline)
                          then [true] else []
                        case Watch(d, online) =>
                          if d == id && !online && HeldOnline(steps, n, id) then [false] else []
                        case Delete(_) => [];
            Switches(id, states[n + 1].log) == Switches(id, states[n].log) + more
  {
    KnownOnlineIff(steps, states, n, id);
    var s, s' := states[n], states[n + 1];
    assert Takes(steps[n], s, s');
    match steps[n]
    case Beat(d, wasOnline, reports) =>
      BeatSwitches(s, s', d, wasOnline, reports, id);
      OnlineSwitch(s.last, d, wasOnline, id);
    case Watch(d, online) =>
      WatchSwitches(s, s', d, online, id);
      WatchLogs(s, s', d, online);
    case Delete(_) =>
      NothingMore(Switches(id, s.log));
  }

  lemma WatchLogs(s: State, s': State, id: int, online: bool)
    requires Watches(s.last, s.log, s'.last, s'.log, id, online)
    ensures s'.log != s.log <==> id in s.last && s.last[id].online && !online
  {
    NothingMore(s.log);
  }

  // ----- sub-devices -----

  /** What the heartbeats among the first `n` steps say of one sub-device, one entry a heartbeat. */
  function History(steps: seq<Step>, n: nat, id: int, name: string): seq<Option<bool>>
    requires n <= |steps|
  {
    if n == 0 then []
    else
      var step := steps[n - 1];
      History(steps, n - 1, id, name)
        + (if step.Beat? && step.id == id then [Find(Reported(step.reports), name)] else [])
  }

  function LastOf(h: seq<Option<bool>>): Option<bool> {
    if h == [] then None else h[|h| - 1]
  }

  /** The edges that a history of reports calls for: nothing but the history matters. */
  function EdgesOf(h: seq<Option<bool>>): seq<bool> {
    if h == [] then []
    else
      var init := h[..|h| - 1];
      EdgesOf(init) + Listed(Change(LastOf(init), h[|h| - 1]))
  }

  lemma BeatEdges(s: State, s': State, id: int, wasOnline: bool, reports: seq<Report>, d: int, name: string)
    requires Beats(s.last, s.log, s'.last, s'.log, id, wasOnline, reports)
    ensures Edges(d, name, s'.log) == Edges(d, name, s.log) +
            (if d == id then Listed(Change(Find(Subs(s.last, id), name), Find(Reported(reports), name))) else [])
  {
    var on := OnlineEvents(s.last, id, wasOnline);
    var es :| s'.log == s.log + on + es && Changes(id, Subs(s.last, id), Reported(reports), es);
    EdgesAppend(d, name, s.log + on, es);
    EdgesAppend(d, name, s.log, on);
    NoSubEdges(d, name, on);
    NothingMore(Edges(d, name, s.log));
    if d != id {
      NoEdges(d, name, es);
    }
  }

  lemma {:induction false} NoSubEdges(id: int, name: string, es: seq<Event>)
    requires forall i :: 0 <= i < |es| ==> es[i].DeviceOnline?
    ensures Edges(id, name, es) == []
  {
    if es != [] {
      NoSubEdges(id, name, es[..|es| - 1]);
    }
  }

  lemma {:induction false} NoEdges(id: int, name: string, es: seq<Event>)
    requires forall i :: 0 <= i < |es| ==> es[i].id != id
    ensures Edges(id, name, es) == []
  {
    if es != [] {
      NoEdges(id, name, es[..|es| - 1]);
    }
  }

  lemma HistoryLast(h: seq<Option<bool>>, now: Option<bool>)
    ensures LastOf(h + [now]) == now && EdgesOf(h + [now]) == EdgesOf(h) + Listed(Change(LastOf(h), now))
  {
    assert (h + [now])[..|h|] == h;
  }

  /** The log and the memory of the tracker match a history of reports. */
  ghost predicate Follows(s: State, id: int, name: string, h: seq<Option<bool>>) {
    Edges(id, name, s.log) == EdgesOf(h) && Find(Subs(s.last, id), name) == LastOf(h)
  }

  lemma BeatFollows(s: State, s': State, d: int, wasOnline: bool, reports: seq<Report>, id: int, name: string,
                    h: seq<Option<bool>>)
    requires Beats(s.last, s.log, s'.last, s'.log, d, wasOnline, reports) && Follows(s, id, name, h)
    ensures Follows(s', id, name, h + if d == id then [Find(Reported(reports), name)] else [])
  {
    BeatEdges(s, s', d, wasOnline, reports, id, name);
    if d == id {
      HistoryLast(h, Find(Reported(reports), name));
    } else {
      assert h + [] == h && Edges(id, name, s.log) + [] == Edges(id, name, s.log);
    }
  }

  /** A passage offline is no change of a sub-device. */
  lemma WatchKeepsEdges(s: State, s': State, d: int, online: bool, id: int, name: string)
    requires Watches(s.last, s.log, s'.last, s'.log, d, online)
    ensures Edges(id, name, s'.log) == Edges(id, name, s.log)
  {
    EdgesLast(id, name, s.log, DeviceOffline(d));
    NothingMore(s.log);
    NothingMore(Edges(id, name, s.log));
  }

  /** A device the watcher hears of first has no known sub-device; of the others it changes nothing known. */
  lemma WatchKeepsSubs(s: State, s': State, d: int, online: bool, id: int)
    requires Watches(s.last, s.log, s'.last, s'.log, d, online)
    ensures Subs(s'.last, id) == Subs(s.last, id)
  {
  }

  lemma WatchFollows(s: State, s': State, d: int, online: bool, id: int, name: string, h: seq<Option<bool>>)
    requires Watches(s.last, s.log, s'.last, s'.log, d, online) && Follows(s, id, name, h)
    ensures Follows(s', id, name, h)
  {
    WatchKeepsEdges(s, s', d, online, id, name);
    WatchKeepsSubs(s, s', d, online, id);
  }

  /** The events of a sub-device are those its reports call for, across offline periods and whatever the
      other devices and the watcher do; the tracker remembers its last report. */
  lemma {:induction false} EventsFollowReports(steps: seq<Step>, states: seq<State>, n: nat, id: int, name: string)
    requires Run(steps, states) && n <= |steps|
    ensures Follows(states[n], id, name, History(steps, n, id, name))
  {
    if n > 0 {
      EventsFollowReports(steps, states, n - 1, id, name);
      var s, s', h := states[n - 1], states[n], History(steps, n - 1, id, name);
      assert Takes(steps[n - 1], s, s');
      match steps[n - 1]
      case Beat(d, wasOnline, reports) => BeatFollows(s, s', d, wasOnline, reports, id, name, h);
      case Watch(d, online) =>
        WatchFollows(s, s', d, online, id, name, h);
        assert h + [] == h;
      case Delete(_) =>
        assert h + [] == h;
    }
  }

  predicate AlwaysReported(h: seq<Option<bool>>) {
    forall i :: 0 <= i < |h| ==> h[i].Some?
  }

  /** The edges alternate and the first one goes down. */
  predicate DownFirst(bs: seq<bool>) {
    Alternates(bs) && (bs != [] ==> !bs[0])
  }

  predicate EndsDown(bs: seq<bool>) {
    bs != [] && !bs[|bs| - 1]
  }

  lemma DownFirstLast(bs: seq<bool>, more: Option<bool>)
    requires DownFirst(bs)
    ensures var c := bs + Listed(more);
            && (more.None? ==> c == bs)
            && (more.Some? ==> (DownFirst(c) <==> (EndsDown(bs) <==> more.value)) && (EndsDown(c) <==> !more.value))
  {
    if more.Some? {
      var c := bs + [more.value];
      assert forall i :: 0 <= i < |bs| ==> c[i] == bs[i];
      if bs != [] {
        assert c[|bs| - 1] == bs[|bs| - 1] && c[|bs| - 1 + 1] == more.value;
      }
    }
  }

  /** A sub-device in every heartbeat: down, up, down, ..., ending with down exactly when the last report
      was unreachable. */
  lemma {:induction false} AlternatesWhenReported(h: seq<Option<bool>>)
    requires AlwaysReported(h)
    ensures DownFirst(EdgesOf(h)) && (EndsDown(EdgesOf(h)) <==> IsDown(LastOf(h)))
  {
    if h != [] {
      var init, now := h[..|h| - 1], h[|h| - 1];
      AlternatesWhenReported(init);
      assert now.Some? && h == init + [now];
      HistoryLast(init, now);
      DownFirstLast(EdgesOf(init), Change(LastOf(init), now));
    }
  }

  lemma SubDevicesAlternate(steps: seq<Step>, states: seq<State>, n: nat, id: int, name: string)
    requires Run(steps, states) && n <= |steps| && AlwaysReported(History(steps, n, id, name))
    ensures var bs := Edges(id, name, states[n].log);
            && DownFirst(bs)
            && (EndsDown(bs) <==> IsDown(LastOf(History(steps, n, id, name))))
  {
    EventsFollowReports(steps, states, n, id, name);
    AlternatesWhenReported(History(steps, n, id, name));
  }

  // ----- a number that passes to another device -----

  /** From step `k` to step `n` nothing is heard under the number. */
  predicate Unheard(steps: seq<Step>, k: nat, n: nat, id: int) {
    k <= n <= |steps| && forall i :: k <= i < n ==> !(steps[i].Beat? && steps[i].id == id)
  }

  /** Meanwhile the watcher looks at the number. */
  predicate Watched(steps: seq<Step>, k: nat, n: nat, id: int)
    requires k <= n <= |steps|
  {
    exists i :: k <= i < n && steps[i].Watch? && steps[i].id == id
  }

  /** Meanwhile the watcher finds the number offline. */
  predicate FoundOffline(steps: seq<Step>, k: nat, n: nat, id: int)
    requires k <= n <= |steps|
  {
    exists i :: k <= i < n && steps[i] == Watch(id, false)
  }

  /** What the tracker believes of a number that nothing is heard under: offline once the watcher found it so,
      otherwise what it believed at first, or what the watcher saw first. */
  predicate Believes(steps: seq<Step>, k: nat, n: nat, id: int,
                     first: map<int, DeviceState>, last: map<int, DeviceState>)
    requires k <= n <= |steps|
  {
    && (id in last <==> id in first || Watched(steps, k, n, id))
    && (id in last ==> (last[id].online <==> !FoundOffline(steps, k, n, id) && (id in first ==> first[id].online)))
  }

  lemma WatchedLast(steps: seq<Step>, k: nat, n: nat, id: int)
    requires k < n <= |steps|
    ensures Watched(steps, k, n, id) <==>
            Watched(steps, k, n - 1, id) || (steps[n - 1].Watch? && steps[n - 1].id == id)
    ensures FoundOffline(steps, k, n, id) <==> FoundOffline(steps, k, n - 1, id) || steps[n - 1] == Watch(id, false)
    ensures FoundOffline(steps, k, n, id) ==> Watched(steps, k, n, id)
  {
  }

  lemma BelievesNext(steps: seq<Step>, k: nat, n: nat, id: int, first: State, s: State, s': State)
    requires k < n <= |steps| && Unheard(steps, k, n, id) && Takes(steps[n - 1], s, s')
    requires Believes(steps, k, n - 1, id, first.last, s.last)
    ensures Believes(steps, k, n, id, first.last, s'.last)
  {
    WatchedLast(steps, k, n, id);
    assert !(steps[n - 1].Beat? && steps[n - 1].id == id);
    if steps[n - 1].Beat? && steps[n - 1].id != id {
      assert id in s'.last <==> id in s.last;
      assert id in s.last ==> s'.last[id] == s.last[id];
    }
  }

  lemma {:induction false} BelievesUnheard(steps: seq<Step>, states: seq<State>, k: nat, n: nat, id: int)
    requires Run(steps, states) && Unheard(steps, k, n, id)
    ensures Believes(steps, k, n, id, states[k].last, states[n].last)
    decreases n
  {
    if n > k {
      BelievesUnheard(steps, states, k, n - 1, id);
      assert Takes(steps[n - 1], states[n - 1], states[n]);
      BelievesNext(steps, k, n, id, states[k], states[n - 1], states[n]);
    }
  }

  lemma {:induction false} UnheardHistory(steps: seq<Step>, k: nat, n: nat, id: int, name: string)
    requires Unheard(steps, k, n, id)
    ensures History(steps, n, id, name) == History(steps, k, id, name)
    decreases n
  {
    if n > k {
      UnheardHistory(steps, k, n - 1, id, name);
      NothingMore(History(steps, n - 1, id, name));
    }
  }

  /** The first heartbeat of a device counts as its passage online. */
  predicate Announced(steps: seq<Step>, k: nat, n: nat, id: int, before: map<int, DeviceState>, wasOnline: bool)
    requires k <= n <= |steps|
  {
    || FoundOffline(steps, k, n, id)
    || (if id in before then !before[id].online else !Watched(steps, k, n, id) && !wasOnline)
  }

  /** The first heartbeat after a deletion under the number of the deleted device: the new device is announced
      exactly when the watcher found it offline first, or the tracker held the old one for offline, or it
      knew neither and the row did not count as online. */
  lemma FirstHeartbeat(steps: seq<Step>, states: seq<State>, k: nat, n: nat, id: int)
    requires Run(steps, states) && n < |steps| && Unheard(steps, k, n, id)
    requires k < n && steps[k] == Delete(id) && steps[n].Beat? && steps[n].id == id
    ensures Switches(id, states[n + 1].log) ==
            Switches(id, states[n].log) +
            if Announced(steps, k, n, id, states[k].last, steps[n].wasOnline) then [true] else []
  {
    var s, s', wasOnline := states[n], states[n + 1], steps[n].wasOnline;
    assert Takes(steps[n], s, s');
    BelievesUnheard(steps, states, k, n, id);
    BeatSwitches(s, s', id, wasOnline, steps[n].reports, id);
    OnlineSwitch(s.last, id, wasOnline, id);
    WatchedLast(steps, k, n, id);
  }

  /** Of its sub-devices that heartbeat announces what changed since the last heartbeat of the deleted device:
      one that fails is announced exactly when that heartbeat did not report its name unreachable. */
  lemma FirstHeartbeatOfSub(steps: seq<Step>, states: seq<State>, k: nat, n: nat, id: int, name: string)
    requires Run(steps, states) && n < |steps| && Unheard(steps, k, n, id)
    requires k < n && steps[k] == Delete(id) && steps[n].Beat? && steps[n].id == id
    ensures var now := Find(Reported(steps[n].reports), name);
            Edges(id, name, states[n + 1].log) ==
            Edges(id, name, states[n].log) + Listed(Change(LastOf(History(steps, k, id, name)), now))
    ensures IsDown(Find(Reported(steps[n].reports), name)) ==>
              (Edges(id, name, states[n + 1].log) == Edges(id, name, states[n].log) + [false] <==>
               !IsDown(LastOf(History(steps, k, id, name))))
  {
    assert Takes(steps[n], states[n], states[n + 1]);
    EventsFollowReports(steps, states, n, id, name);
    UnheardHistory(steps, k, n, id, name);
    BeatEdges(states[n], states[n + 1], id, steps[n].wasOnline, steps[n].reports, id, name);
  }

  // ----- exactly when they alternate -----

  /** A failure is dropped: the heartbeat after it leaves the sub-device out. */
  predicate DropsAt(h: seq<Option<bool>>, i: int) {
    0 <= i < |h| - 1 && IsDown(h[i]) && h[i + 1].None?
  }

  ghost predicate Drops(h: seq<Option<bool>>) {
    exists i :: DropsAt(h, i)
  }

  /** A failure is dropped, and the sub-device is reported unreachable again later. */
  ghost predicate Repeats(h: seq<Option<bool>>) {
    exists i, k :: DropsAt(h, i) && i + 1 < k < |h| && IsDown(h[k])
  }

  lemma DropsLast(h: seq<Option<bool>>, now: Option<bool>)
    ensures Drops(h + [now]) <==> Drops(h) || (IsDown(LastOf(h)) && now.None?)
  {
    var g := h + [now];
    if Drops(h) {
      var i :| DropsAt(h, i);
      assert DropsAt(g, i);
    }
    if IsDown(LastOf(h)) && now.None? {
      assert DropsAt(g, |h| - 1);
    }
    if Drops(g) {
      var i :| DropsAt(g, i);
      assert i < |h| - 1 ==> DropsAt(h, i);
    }
  }

  lemma RepeatsLast(h: seq<Option<bool>>, now: Option<bool>)
    ensures Repeats(h + [now]) <==> Repeats(h) || (Drops(h) && IsDown(now))
  {
    var g := h + [now];
    if Repeats(h) {
      var i, k :| DropsAt(h, i) && i + 1 < k < |h| && IsDown(h[k]);
      assert DropsAt(g, i) && IsDown(g[k]);
    }
    if Drops(h) && IsDown(now) {
      var i :| DropsAt(h, i);
      assert DropsAt(g, i) && IsDown(g[|h|]);
    }
    if Repeats(g) {
      var i, k :| DropsAt(g, i) && i + 1 < k < |g| && IsDown(g[k]);
      assert DropsAt(h, i);
      assert k < |h| ==> IsDown(h[k]);
    }
  }

  /** As long as nothing is repeated, the edges end with down while the failure lasts or after it was
      dropped. */
  ghost predicate Tracks(h: seq<Option<bool>>) {
    DownFirst(EdgesOf(h)) && (EndsDown(EdgesOf(h)) <==> IsDown(LastOf(h)) || Drops(h))
  }

  lemma DroppedIsOver(h: seq<Option<bool>>)
    requires !Repeats(h) && Drops(h)
    ensures !IsDown(LastOf(h))
  {
    var i :| DropsAt(h, i);
    if i + 1 < |h| - 1 {
      assert !IsDown(h[|h| - 1]);
    }
  }

  lemma TracksLast(h: seq<Option<bool>>, now: Option<bool>)
    requires Tracks(h) && !Repeats(h)
    ensures if Repeats(h + [now]) then !DownFirst(EdgesOf(h + [now])) else Tracks(h + [now])
  {
    HistoryLast(h, now);
    DropsLast(h, now);
    RepeatsLast(h, now);
    var c := Change(LastOf(h), now);
    DownFirstLast(EdgesOf(h), c);
    assert c.Some? && c.value ==> now.Some? && now.value && IsDown(LastOf(h));
    if Drops(h) {
      DroppedIsOver(h);
    }
  }

  lemma NotDownFirstStays(bs: seq<bool>, more: seq<bool>)
    requires !DownFirst(bs)
    ensures !DownFirst(bs + more)
  {
    var c := bs + more;
    assert forall i :: 0 <= i < |bs| ==> c[i] == bs[i];
    if bs == [] || !bs[0] {
      var i :| 0 <= i < |bs| - 1 && bs[i] == bs[i + 1];
      assert c[i] == c[i + 1];
    }
  }

  lemma {:induction false} TracksUnlessRepeated(h: seq<Option<bool>>)
    ensures if Repeats(h) then !DownFirst(EdgesOf(h)) else Tracks(h)
  {
    if h != [] {
      var init, now := h[..|h| - 1], h[|h| - 1];
      assert h == init + [now];
      TracksUnlessRepeated(init);
      if Repeats(init) {
        RepeatsLast(init, now);
        NotDownFirstStays(EdgesOf(init), Listed(Change(LastOf(init), now)));
      } else {
        TracksLast(init, now);
      }
    }
  }

  /** The edges of a sub-device alternate, starting with down, exactly when no failure is dropped by a
      heartbeat that leaves the sub-device out and then reported again. */
  lemma AlternatesIff(steps: seq<Step>, states: seq<State>, n: nat, id: int, name: string)
    requires Run(steps, states) && n <= |steps|
    ensures DownFirst(Edges(id, name, states[n].log)) <==> !Repeats(History(steps, n, id, name))
  {
    EventsFollowReports(steps, states, n, id, name);
    TracksUnlessRepeated(History(steps, n, id, name));
  }

  /** Heartbeats that report a sub-device unreachable, leave it out, and report it unreachable again. */
  function Flapping(id: int, name: string): seq<Step> {
    [Beat(id, false, [Report(name, false)]), Beat(id, true, []), Beat(id, true, [Report(name, false)])]
  }

  /** Such a run announces the failure twice in a row. */
  lemma AbsenceRepeatsDown(states: seq<State>, id: int, name: string)
    requires Run(Flapping(id, name), states)
    ensures Edges(id, name, states[3].log) == [false, false]
  {
    FlappingHistory(id, name);
    FlappingEdges();
    EventsFollowReports(Flapping(id, name), states, 3, id, name);
  }

  lemma FlappingEdges()
    ensures EdgesOf([Some(false), None, Some(false)]) == [false, false]
  {
    HistoryLast([], Some(false));
    HistoryLast([Some(false)], None);
    HistoryLast([Some(false), None], Some(false));
    assert [] + [Some(false)] == [Some(false)] && [Some(false)] + [None] == [Some(false), None];
    assert [Some(false), None] + [Some(false)] == [Some(false), None, Some(false)];
  }

  lemma FlappingHistory(id: int, name: string)
    ensures History(Flapping(id, name), 3, id, name) == [Some(false), None, Some(false)]
  {
    var f, down := Flapping(id, name), Report(name, false);
    assert Reported([down]) == Reported([])[name := false] by {
      assert [down][..0] == [];
    }
    assert History(f, 1, id, name) == [Some(false)];
    assert History(f, 2, id, name) == [Some(false), None];
  }
}
