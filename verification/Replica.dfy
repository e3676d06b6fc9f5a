/** The configuration that an agent runs, as a replica of what the hub stores for its device
    (agent/cmd/agent/main.go:457-526, 562-616, hub/dashboard/agentapi.go:145-156,
    hub/dashboard/portal.go:639-642). Starting the forwards is one step that succeeds for all rules or fails
    and leaves none. */
module Replica {
  import opened Common
  import opened Links
  import opened Saving
  import Convergence
  import DeviceConfigs

  /** What the agent holds before its first configuration. */
  const NOTHING := Config("", 0, [], [], Update(false, 0), None)

  /** What the hub sends of a stored configuration: normalized when the row is read and again in the copy
      made for the agent. */
  function Sent(stored: Config): Config {
    var n := Convergence.NormalizedTimes(stored, 2);
    n.(processor := if n.subDevices == [] then None else Some(n.subDevices[0]))
  }

  /** What lies between the two: what is sent of a stored configuration, and which rules an agent accepts.
      Both are fixed at the end of this module. */
  datatype Wire = Wire(sent: Config -> Config, accepts: seq<AgentForward> -> bool)

  /** The version and configuration an agent applied, and the rules it runs, if any. */
  datatype View = View(version: nat, remote: Config, running: Option<seq<AgentForward>>)

  const BLANK := View(0, NOTHING, None)

  datatype Outcome = Starts | FailsToStart

  /** A reload with what came back from the hub. */
  function Reloaded(w: Wire, v: View, got: Option<(nat, Config)>, outcome: Outcome): View {
    if got.None? then v
    else
      var rules := ReceivedAll(got.value.1.forwards);
      if !w.accepts(rules) then v
      else if outcome.FailsToStart? then v.(running := None)
      else View(got.value.0, got.value.1, Some(rules))
  }

  function Real(splits: string -> bool): Wire {
    Wire(c => Sent(c), rules => AgentAccepts(rules, splits))
  }

  class AgentState {
    var remote: Config
    var version: nat
    var fwds: Option<seq<AgentForward>>

    constructor ()
      ensures Value() == BLANK
    {
      remote, version, fwds := NOTHING, 0, None;
    }

    function Value(): View
      reads this
    {
      View(version, remote, fwds)
    }

    method StopForwards()
      modifies this`fwds
      ensures fwds == None
    {
      if fwds.Some? {
        fwds := None;
      }
    }

    /** The rules are checked before anything is stopped. */
    method ReloadConfig(got: Option<(nat, Config)>, splits: string -> bool, outcome: Outcome) returns (ok: bool)
      modifies this
      ensures Value() == Reloaded(Real(splits), old(Value()), got, outcome)
      ensures ok <==> got.Some? && AgentAccepts(ReceivedAll(got.value.1.forwards), splits) && outcome.Starts?
    {
      if got.None? {
        return false;
      }
      var (ver, conf) := got.value;
      var rules: seq<AgentForward> := [];
      for i := 0 to |conf.forwards|
        invariant |rules| == i && forall k :: 0 <= k < i ==> rules[k] == Received(conf.forwards[k])
      {
        var f := conf.forwards[i];
        rules := rules + [AgentForward(f.name, Lower(f.proto), f.listen, f.target)];
      }
      assert rules == ReceivedAll(conf.forwards);
      var bad := ValidateForwards(rules, splits);
      if bad.Some? {
        return false;
      }
      StopForwards();
      if outcome.FailsToStart? {
        return false;
      }
      remote, version, fwds := conf, ver, Some(rules);
      return true;
    }
  }

  /** The answer of the hub to a request for the configuration: its version is how many were stored. */
  method AnswerConfig(history: seq<Config>) returns (version: nat, sent: Config)
    requires history != []
    ensures version == |history| && sent == Sent(history[|history| - 1])
  {
    var row := new DeviceConfigs.DeviceConfig(history[|history| - 1]);
    row.Normalize();
    version := |history|;
    sent := row.ForAgent();
    assert Convergence.NormalizedTimes(history[|history| - 1], 2) == Normalized(Normalized(history[|history| - 1])) by {
      Convergence.NormalizedOnceMore(history[|history| - 1], 1);
      Convergence.NormalizedOnceMore(history[|history| - 1], 0);
    }
  }

  // ----- runs -----

  datatype Phase = Off | Idle | Behind | Fetched(version: nat, config: Config)

  /** All that the hub stored for the device, and its agent. */
  datatype State = State(history: seq<Config>, phase: Phase, view: View)

  datatype Step =
    | Save(stored: Config)       // the portal stores another configuration, at any moment
    | Begin                      // the agent comes online
    | Heartbeat(answered: bool)
    | Fetch(answered: bool)
    | Apply(outcome: Outcome)
    | End                        // the agent stops, restarts or is turned away

  /** A failed reload ends the session if it was the first one. */
  function AfterReload(v: View): Phase {
    if v.version == 0 then Off else Idle
  }

  /** Leaving a session stops the forwards and forgets the configuration. */
  function Ended(s: State): State {
    if s.phase.Off? then s.(view := BLANK) else s
  }

  function Next(w: Wire, s: State, step: Step): State {
    match step
    case Save(stored) => s.(history := s.history + [stored])
    case Begin => if s.phase.Off? then s.(phase := Behind, view := BLANK) else s
    case Heartbeat(answered) =>
      if s.phase.Idle? && answered && s.view.version != |s.history| then s.(phase := Behind) else s
    case Fetch(answered) =>
      if !s.phase.Behind? || s.history == [] then s
      else if answered then s.(phase := Fetched(|s.history|, w.sent(s.history[|s.history| - 1])))
      else Ended(s.(phase := AfterReload(s.view)))
    case Apply(outcome) =>
      if !s.phase.Fetched? then s
      else
        var view := Reloaded(w, s.view, Some((s.phase.version, s.phase.config)), outcome);
        Ended(s.(phase := AfterReload(view), view := view))
    case End => Ended(s.(phase := Off))
  }

  function After(w: Wire, first: Config, steps: seq<Step>): (s: State)
    ensures s.history != []
  {
    if steps == [] then State([first], Off, BLANK)
    else Next(w, After(w, first, steps[..|steps| - 1]), steps[|steps| - 1])
  }

  /** What the agent applied is a version that the hub stored. */
  predicate IsStored(w: Wire, history: seq<Config>, version: nat, remote: Config) {
    0 < version <= |history| && remote == w.sent(history[version - 1])
  }

  predicate Faithful(w: Wire, s: State) {
    && s.history != []
    && (if s.view.version == 0 then s.view == BLANK else IsStored(w, s.history, s.view.version, s.view.remote))
    && (s.view.running.Some? ==>
          s.view.running.value == ReceivedAll(s.view.remote.forwards) && w.accepts(s.view.running.value))
    && match s.phase
       case Off => s.view == BLANK
       case Idle => s.view.version > 0 && (s.view.running.None? ==> s.view.version < |s.history|)
       case Behind => s.view.version < |s.history|
       case Fetched(version, config) => s.view.version < version && IsStored(w, s.history, version, config)
  }

  lemma SaveKeeps(w: Wire, s: State, more: Config)
    requires Faithful(w, s)
    ensures Faithful(w, s.(history := s.history + [more]))
  {
    var h := s.history + [more];
    forall version, remote | IsStored(w, s.history, version, remote) ensures IsStored(w, h, version, remote) {
      assert h[version - 1] == s.history[version - 1];
    }
  }

  lemma StepKeeps(w: Wire, s: State, step: Step)
    requires Faithful(w, s)
    ensures Faithful(w, Next(w, s, step))
  {
    match step
    case Save(stored) => SaveKeeps(w, s, stored);
    case _ =>
  }

  /** In every run, with saves at any moment: the agent's version and configuration are one that the hub
      stored for the device, and it runs exactly the rules of that configuration or none; when it runs none
      between heartbeats, its version is below the hub's. */
  lemma {:induction false} StaysFaithful(w: Wire, first: Config, steps: seq<Step>)
    ensures Faithful(w, After(w, first, steps))
    decreases steps
  {
    if steps != [] {
      StaysFaithful(w, first, steps[..|steps| - 1]);
      StepKeeps(w, After(w, first, steps[..|steps| - 1]), steps[|steps| - 1]);
    }
  }

  /** An agent left without rules by a failed reload is sent back by the next answered heartbeat. */
  lemma StoppedRetries(w: Wire, first: Config, steps: seq<Step>)
    requires var s := After(w, first, steps); s.phase.Idle? && s.view.running.None?
    ensures After(w, first, steps + [Heartbeat(true)]).phase.Behind?
  {
    StaysFaithful(w, first, steps);
    AfterLast(w, first, steps, Heartbeat(true));
  }

  /** The agent runs the newest configuration. */
  predicate UpToDate(w: Wire, s: State) {
    && s.history != [] && s.view.version == |s.history| && s.view.remote == w.sent(s.history[|s.history| - 1])
    && s.view.running == Some(ReceivedAll(s.view.remote.forwards))
  }

  lemma AfterLast(w: Wire, first: Config, steps: seq<Step>, step: Step)
    ensures After(w, first, steps + [step]) == Next(w, After(w, first, steps), step)
  {
    assert (steps + [step])[..|steps|] == steps;
  }

  /** A heartbeat, and the reload it calls for, with nothing else in between. */
  function Reload(): seq<Step> {
    [Heartbeat(true)] + [Fetch(true)] + [Apply(Starts)]
  }

  /** The agent would accept the newest configuration. */
  predicate NewestAccepted(w: Wire, history: seq<Config>)
    requires history != []
  {
    w.accepts(ReceivedAll(w.sent(history[|history| - 1]).forwards))
  }

  lemma IdleReload(w: Wire, s: State)
    requires Faithful(w, s) && s.phase.Idle?
    ensures var s' := Next(w, Next(w, Next(w, s, Heartbeat(true)), Fetch(true)), Apply(Starts));
            && s'.history == s.history && s'.phase.Idle?
            && (UpToDate(w, s') <==> NewestAccepted(w, s.history))
            && (!UpToDate(w, s') ==> s'.view == s.view)
  {
  }

  /** One heartbeat whose reload is not disturbed brings an agent up to date exactly when it accepts the
      rules of the newest configuration; if not, it goes on with what it ran before. */
  lemma ReloadSettles(w: Wire, first: Config, steps: seq<Step>)
    requires After(w, first, steps).phase.Idle?
    ensures var s := After(w, first, steps);
            var s' := After(w, first, steps + Reload());
            && s'.history == s.history && s'.phase.Idle?
            && (UpToDate(w, s') <==> NewestAccepted(w, s.history))
            && (!UpToDate(w, s') ==> s'.view == s.view)
  {
    StaysFaithful(w, first, steps);
    IdleReload(w, After(w, first, steps));
    AfterLast(w, first, steps, Heartbeat(true));
    AfterLast(w, first, steps + [Heartbeat(true)], Fetch(true));
    AfterLast(w, first, steps + [Heartbeat(true)] + [Fetch(true)], Apply(Starts));
    assert steps + Reload() == steps + [Heartbeat(true)] + [Fetch(true)] + [Apply(Starts)];
  }

  /** The heartbeat of an agent that is behind, and a reload whose forwards do not start. */
  function FailedReload(): seq<Step> {
    [Heartbeat(true)] + [Fetch(true)] + [Apply(FailsToStart)]
  }

  lemma BehindFails(w: Wire, s: State)
    requires s.phase.Idle? && Faithful(w, s) && s.view.version != |s.history| && NewestAccepted(w, s.history)
    ensures Next(w, Next(w, Next(w, s, Heartbeat(true)), Fetch(true)), Apply(FailsToStart)) ==
            s.(view := s.view.(running := None))
  {
  }

  /** When the newest rules are accepted but do not start, nothing runs any more, the agent keeps the version it
      had, and the next undisturbed heartbeat brings it up to date. */
  lemma FailedStartRecovers(w: Wire, first: Config, steps: seq<Step>)
    requires var s := After(w, first, steps);
             s.phase.Idle? && s.view.version != |s.history| && NewestAccepted(w, s.history)
    ensures var s, failed := After(w, first, steps), After(w, first, steps + FailedReload());
            && failed.view.running == None && failed.view.version == s.view.version
            && failed.view.remote == s.view.remote && failed.history == s.history
    ensures UpToDate(w, After(w, first, steps + FailedReload() + Reload()))
  {
    StaysFaithful(w, first, steps);
    BehindFails(w, After(w, first, steps));
    AfterLast(w, first, steps, Heartbeat(true));
    AfterLast(w, first, steps + [Heartbeat(true)], Fetch(true));
    AfterLast(w, first, steps + [Heartbeat(true)] + [Fetch(true)], Apply(FailsToStart));
    assert steps + FailedReload() == steps + [Heartbeat(true)] + [Fetch(true)] + [Apply(FailsToStart)];
    ReloadSettles(w, first, steps + FailedReload());
  }

  // ----- from the portal to the forwards -----

  lemma RealAccepts(splits: string -> bool, history: seq<Config>, stored: Config)
    requires history != [] && history[|history| - 1] == stored
    ensures NewestAccepted(Real(splits), history) <==>
            AgentAccepts(ReceivedAll(Convergence.NormalizedTimes(stored, 2).forwards), splits)
  {
    assert Sent(stored).forwards == Convergence.NormalizedTimes(stored, 2).forwards;
  }

  /** A configuration that the portal accepts reaches an idle agent with one undisturbed heartbeat, and
      every rule of it runs, exactly when its targets split as host and port. */
  lemma SavedIsRun(first: Config, steps: seq<Step>, raw: Config, slug: string, isIP: string -> bool,
                   splits: string -> bool)
    requires After(Real(splits), first, steps).phase.Idle? && Accepted(raw, slug, isIP)
    ensures var stored := Stored(raw, slug);
            var s := After(Real(splits), first, steps + [Save(stored)] + Reload());
            && s.history == After(Real(splits), first, steps).history + [stored]
            && (UpToDate(Real(splits), s) <==>
                  forall k :: 0 <= k < |stored.forwards| ==> splits(stored.forwards[k].target))
  {
    var stored := Stored(raw, slug);
    AfterLast(Real(splits), first, steps, Save(stored));
    ReloadSettles(Real(splits), first, steps + [Save(stored)]);
    RealAccepts(splits, After(Real(splits), first, steps + [Save(stored)]).history, stored);
    AcceptedByAgent(raw, slug, isIP, splits, 2);
  }
}
