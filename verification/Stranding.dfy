/** Which steps and which hubs leave an agent without a key (agent/cmd/agent/main.go:319-323, 420-525): the
    other half of what `Handoff` proves. */
module Stranding {
  import opened Common
  import opened Enrollment
  import opened Handoff

  // ----- the first hand-off of a site -----

  lemma RunLast(net: Network, s: State, steps: seq<Step>, step: Step)
    ensures RunFrom(net, s, steps + [step]) == Next(net, RunFrom(net, s, steps), step)
  {
    RunAppend(net, s, steps, [step]);
    assert [step][1..] == [];
  }

  function T(site: Site): Step {
    Turn(site, Done)
  }

  /** A first enrolment, approved. */
  function Begun(site: Site): seq<Step> {
    [] + [T(site)] + [T(site)] + [Approve(site, true)]
  }

  lemma BegunShows(net: Network, site: Site)
    ensures var st := Saved(0, "", false);
            var row := Row(Approved, 0, if net.enabled then Some(0) else None, false);
            Shows(RunFrom(net, EMPTY, Begun(site)), site, row, Agent(Some(st), Polling(st)))
  {
    RunLast(net, EMPTY, [], T(site));
    EnrollShows(net, EMPTY, site);
    var s1 := RunFrom(net, EMPTY, [] + [T(site)]);
    RunLast(net, EMPTY, [] + [T(site)], T(site));
    var row := Row(Pending, 0, None, false);
    OwnTurnIs(net, s1, site, row, Agent(None, TokenReceived(0)));
    var s2 := Next(net, s1, T(site));
    RunLast(net, EMPTY, [] + [T(site)] + [T(site)], Approve(site, true));
    AdminStepIsLocal(net, s2, Approve(site, true));
    LocalKeepsSound(s2.hub, Next(net, s2, Approve(site, true)).hub, site);
    assert s1.hub.keys == 0 && s2.hub.keys == 0;
  }

  lemma TurnShows(net: Network, steps: seq<Step>, site: Site, row: Row, agent: Agent)
    requires Shows(RunFrom(net, EMPTY, steps), site, row, agent) && Matches(row, agent)
    ensures var r := OwnTurn(net, row, agent); Shows(RunFrom(net, EMPTY, steps + [T(site)]), site, r.0, r.1)
  {
    RunLast(net, EMPTY, steps, T(site));
    OwnTurnIs(net, RunFrom(net, EMPTY, steps), site, row, agent);
  }

  /** Without a Headscale server the first approval strands the agent. */
  lemma NoServerStrands(net: Network, site: Site)
    requires !net.enabled
    ensures var s := RunFrom(net, EMPTY, Begun(site) + [T(site)] + [T(site)]); AgentAt(s, site).phase.NoKey?
  {
    var st := Saved(0, "", false);
    var row := Row(Approved, 0, None, false);
    BegunShows(net, site);
    TurnShows(net, Begun(site), site, row, Agent(Some(st), Polling(st)));
    TurnShows(net, Begun(site) + [T(site)], site, row, Agent(Some(st), Granted(st, net.url, None)));
  }

  lemma {:induction false} PlainStepsKeep(net: Network, s: State, steps: seq<Step>)
    requires forall i :: 0 <= i < |steps| ==> !steps[i].Reset? && !steps[i].Unwritten?
    ensures NotesKept(net, s, steps)
    decreases steps
  {
    if steps != [] {
      PlainStepsKeep(net, Next(net, s, steps[0]), steps[1..]);
    }
  }

  /** In the runs that keep the note of joining some agent may give up for want of a key exactly when there is
      no Headscale server. */
  lemma StrandedIff(net: Network)
    ensures (exists steps, site ::
               NotesKept(net, EMPTY, steps) && AgentAt(RunFrom(net, EMPTY, steps), site).phase.NoKey?) <==>
            !net.enabled
  {
    if net.enabled {
      forall steps, site | NotesKept(net, EMPTY, steps)
        ensures !AgentAt(RunFrom(net, EMPTY, steps), site).phase.NoKey?
      {
        KeyAlwaysAwaits(net, steps, site);
      }
    } else {
      var site := Site(1, "a");
      var steps := Begun(site) + [T(site)] + [T(site)];
      NoServerStrands(net, site);
      PlainStepsKeep(net, EMPTY, steps);
    }
  }

  /** Approved, but without a key and never joined on file. */
  ghost predicate Stranded(s: State, site: Site) {
    && Sound(s.hub) && IsApproved(s.hub, site) && s.hub.rows[site].key.None?
    && var agent := AgentAt(s, site);
       agent.phase.NoKey? && agent.phase.st.token == s.hub.rows[site].token && agent.saved == Some(agent.phase.st)
  }

  /** The agent of the site starts from its state file, or polls, and finds its device approved without a
      key. */
  ghost predicate Keyless(s: State, site: Site, row: Row, st: Saved, phase: Phase) {
    && Shows(s, site, row, Agent(Some(st), phase))
    && row.status == Approved && row.key.None? && st.token == row.token && !st.joined
  }

  lemma PollingGivesUp(net: Network, s: State, site: Site, row: Row, st: Saved)
    requires Keyless(s, site, row, st, Polling(st))
    ensures Stranded(RunFrom(net, s, Turns(site, 2)), site)
  {
    var s1 := Next(net, s, T(site));
    OwnTurnIs(net, s, site, row, Agent(Some(st), Polling(st)));
    OwnTurnIs(net, s1, site, row, Agent(Some(st), Granted(st, net.url, None)));
    RunTurn(net, s, site, 2);
    RunTurn(net, s1, site, 1);
  }

  lemma StartGivesUp(net: Network, s: State, site: Site, row: Row, st: Saved)
    requires Keyless(s, site, row, st, Start)
    ensures Stranded(RunFrom(net, s, Turns(site, 3)), site)
  {
    OwnTurnIs(net, s, site, row, Agent(Some(st), Start));
    PollingGivesUp(net, Next(net, s, T(site)), site, row, st);
    RunTurn(net, s, site, 3);
  }

  /** Whatever its agent was doing, the reset of an approved device without a key strands it: the agent enrols
      again, is still approved, and finds no key. */
  lemma ResetStrands(net: Network, s: State, site: Site)
    requires Sound(s.hub) && IsApproved(s.hub, site) && s.hub.rows[site].key.None?
    ensures Stranded(RunFrom(net, Next(net, s, Reset(site)), Turns(site, 4)), site)
  {
    var s0 := Next(net, s, Reset(site));
    var s1 := Next(net, s0, T(site));
    var token := s.hub.tokens;
    var row := Enrolled(s.hub.rows[site], token);
    EnrollShows(net, s0, site);
    OwnTurnIs(net, s1, site, row, Agent(None, TokenReceived(token)));
    PollingGivesUp(net, Next(net, s1, T(site)), site, row, Saved(token, "", false));
    RunTurn(net, s0, site, 4);
    RunTurn(net, s1, site, 3);
  }

  /** A new key for the stranded device is all it takes. */
  lemma RekeyRescues(net: Network, s: State, site: Site)
    requires net.enabled && Stranded(s, site)
    ensures Settled(net, RunFrom(net, Next(net, s, Rekey(site, true)), Turns(site, 7)), site)
  {
    var s1, agent := Next(net, s, Rekey(site, true)), AgentAt(s, site);
    AdminStepIsLocal(net, s, Rekey(site, true));
    LocalKeepsSound(s.hub, s1.hub, site);
    var row1 := s.hub.rows[site].(key := Some(s.hub.keys), delivered := false);
    OwnTurnIs(net, s1, site, row1, agent);
    RunTurn(net, s1, site, 7);
    TurnsSettle(net, Next(net, s1, T(site)), site, row1, Agent(agent.saved, Start), 6);
  }

  lemma RunFirst(net: Network, s: State, step: Step, rest: seq<Step>)
    ensures RunFrom(net, s, [step] + rest) == RunFrom(net, Next(net, s, step), rest)
  {
    assert ([step] + rest)[1..] == rest;
  }

  /** The key is confirmed and the agent stops. */
  function ConfirmedOnly(site: Site): seq<Step> {
    [T(site)] + ([Crash(site)] + Turns(site, 3))
  }

  /** After a lost note: the device is approved unless it is, its key confirmed, and the agent stops. */
  function AfterLostNote(site: Site, approved: bool): seq<Step> {
    if approved then ConfirmedOnly(site) else [Approve(site, true)] + ConfirmedOnly(site)
  }

  /** The agent has lost its note, and its device is stored. */
  ghost predicate Unnoted(s: State, site: Site, row: Row, st: Saved, joined: Saved) {
    Shows(s, site, row, Agent(Some(st), Written(joined))) && st.token == joined.token == row.token && !st.joined
  }

  lemma ConfirmedStrands(net: Network, s: State, site: Site, row: Row, st: Saved, joined: Saved)
    requires Unnoted(s, site, row, st, joined) && row.status == Approved
    ensures Stranded(RunFrom(net, s, ConfirmedOnly(site)), site)
  {
    var s1 := Next(net, s, T(site));
    var s2 := Next(net, s1, Crash(site));
    OwnTurnIs(net, s, site, row, Agent(Some(st), Written(joined)));
    StartGivesUp(net, s2, site, row.(key := None, delivered := true), st);
    RunFirst(net, s, T(site), [Crash(site)] + Turns(site, 3));
    RunFirst(net, s1, Crash(site), Turns(site, 3));
  }

  lemma ApprovedUnnoted(net: Network, s: State, site: Site, row: Row, st: Saved, joined: Saved)
    requires net.enabled && Unnoted(s, site, row, st, joined)
    ensures var next := Next(net, s, Approve(site, true));
            IsApproved(next.hub, site) && Unnoted(next, site, next.hub.rows[site], st, joined)
  {
    AdminStepIsLocal(net, s, Approve(site, true));
    LocalKeepsSound(s.hub, Next(net, s, Approve(site, true)).hub, site);
  }

  lemma UnnotedStrands(net: Network, s: State, site: Site, row: Row, st: Saved, joined: Saved)
    requires net.enabled && Unnoted(s, site, row, st, joined)
    ensures Stranded(RunFrom(net, s, AfterLostNote(site, row.status == Approved)), site)
  {
    if row.status == Approved {
      ConfirmedStrands(net, s, site, row, st, joined);
    } else {
      var next := Next(net, s, Approve(site, true));
      ApprovedUnnoted(net, s, site, row, st, joined);
      ConfirmedStrands(net, next, site, next.hub.rows[site], st, joined);
      RunFirst(net, s, Approve(site, true), ConfirmedOnly(site));
    }
  }

  /** Wherever a run has brought the agent of a stored device that joins for the first time, losing that note
      and stopping after the confirmation strands it, if need be after an approval. */
  lemma LostNoteStrands(net: Network, steps: seq<Step>, site: Site)
    requires net.enabled && NotesKept(net, EMPTY, steps)
    requires var s := RunFrom(net, EMPTY, steps);
             site in s.hub.rows && AgentAt(s, site).phase.Joined? && !HasJoined(AgentAt(s, site))
    ensures var s := RunFrom(net, EMPTY, steps);
            var more := AfterLostNote(site, IsApproved(s.hub, site));
            Stranded(RunFrom(net, Next(net, s, Unwritten(site)), more), site)
  {
    var s := RunFrom(net, EMPTY, steps);
    StaysSound(net, EMPTY, steps);
    var row, agent := s.hub.rows[site], AgentAt(s, site);
    assert SiteSound(s.hub, site, agent);
    UnnotedStrands(net, Next(net, s, Unwritten(site)), site, row, agent.saved.value, agent.phase.st);
  }

  // ----- exactly which steps strand -----

  /** However the run goes on, as long as the notes are kept, no agent gives up for want of a key. */
  ghost predicate NeverStrands(net: Network, s: State) {
    forall more: seq<Step>, site: Site ::
      NotesKept(net, s, more) ==> !AgentAt(RunFrom(net, s, more), site).phase.NoKey?
  }

  lemma SoundNeverStrands(net: Network, s: State)
    requires net.enabled && AllSound(s)
    ensures NeverStrands(net, s)
  {
    forall more: seq<Step>, site: Site | NotesKept(net, s, more)
      ensures !AgentAt(RunFrom(net, s, more), site).phase.NoKey?
    {
      StaysSound(net, s, more);
      assert SiteSound(RunFrom(net, s, more).hub, site, AgentAt(RunFrom(net, s, more), site));
    }
  }

  lemma {:induction false} TurnsArePlain(site: Site, n: nat)
    ensures forall i :: 0 <= i < |Turns(site, n)| ==> Turns(site, n)[i] == T(site)
  {
    if n > 0 {
      TurnsArePlain(site, n - 1);
    }
  }

  lemma StrandedBy(net: Network, s: State, site: Site, more: seq<Step>)
    requires forall i :: 0 <= i < |more| ==> !more[i].Reset? && !more[i].Unwritten?
    requires AgentAt(RunFrom(net, s, more), site).phase.NoKey?
    ensures !NeverStrands(net, s)
  {
    PlainStepsKeep(net, s, more);
  }

  /** After a run that kept its notes, a step lets some agent be stranded later exactly when it does not keep
      them. */
  lemma KeepsNoteIff(net: Network, steps: seq<Step>, step: Step)
    requires net.enabled && NotesKept(net, EMPTY, steps)
    ensures var s := RunFrom(net, EMPTY, steps); NeverStrands(net, Next(net, s, step)) <==> KeepsNote(s, step)
  {
    var s := RunFrom(net, EMPTY, steps);
    StaysSound(net, EMPTY, steps);
    if KeepsNote(s, step) {
      StepKeeps(net, s, step);
      SoundNeverStrands(net, Next(net, s, step));
    } else {
      TurnsArePlain(step.site, 3);
      TurnsArePlain(step.site, 4);
      var more := if step.Reset? then Turns(step.site, 4) else AfterLostNote(step.site, IsApproved(s.hub, step.site));
      if step.Reset? {
        ResetStrands(net, s, step.site);
      } else {
        LostNoteStrands(net, steps, step.site);
      }
      StrandedBy(net, Next(net, s, step), step.site, more);
    }
  }

  // ----- the runs that get there -----

  /** From the first approval until the tunnel is up. */
  function UntilJoined(site: Site): seq<Step> {
    Begun(site) + [T(site)] + [T(site)] + [T(site)]
  }

  lemma UntilJoinedShows(net: Network, site: Site)
    requires net.enabled
    ensures var st := Saved(0, net.url, false);
            Shows(RunFrom(net, EMPTY, UntilJoined(site)), site, Row(Approved, 0, Some(0), false),
                  Agent(Some(st), Joined(st.(joined := true))))
  {
    var st, row := Saved(0, "", false), Row(Approved, 0, Some(0), false);
    BegunShows(net, site);
    TurnShows(net, Begun(site), site, row, Agent(Some(st), Polling(st)));
    TurnShows(net, Begun(site) + [T(site)], site, row, Agent(Some(st), Granted(st, net.url, Some(0))));
    var st' := st.(control := net.url);
    TurnShows(net, Begun(site) + [T(site)] + [T(site)], site, row, Agent(Some(st'), Connecting(st', Some(0))));
  }

  /** The first hand-off of any site gets to the write that must not be lost. */
  lemma FirstJoinIsReached(net: Network, site: Site)
    requires net.enabled
    ensures NotesKept(net, EMPTY, UntilJoined(site))
    ensures var s := RunFrom(net, EMPTY, UntilJoined(site));
            IsApproved(s.hub, site) && AgentAt(s, site).phase.Joined? && !HasJoined(AgentAt(s, site))
  {
    PlainStepsKeep(net, EMPTY, UntilJoined(site));
    UntilJoinedShows(net, site);
  }
}
