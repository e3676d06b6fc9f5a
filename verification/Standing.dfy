/** The standing of a device and what its agent is told of it, over whole runs (hub/dashboard/agentapi.go:58-70,
    111-133, 262-294, hub/dashboard/portal.go:91-105, agent/cmd/agent/main.go:420-459, 495-512). */
module Standing {
  import opened Common
  import opened Enrollment
  import opened Handoff

  // ----- what changes a status -----

  /** The step enrols the site again: its agent has no state file and the request arrives. */
  predicate Enrols(s: State, step: Step, site: Site) {
    step.Turn? && step.site == site && step.fate != Failed && AgentAt(s, site) == Agent(None, Start)
  }

  predicate TurnedAway(status: Status) {
    status == Revoked || status == Rejected
  }

  /** The step leaves the status of the device: it neither approves it, turns it away nor deletes it, and does
      not enrol it while it is turned away. */
  predicate Leaves(net: Network, s: State, step: Step, site: Site) {
    && (step.Approve? && step.site == site ==> net.enabled && !step.works)
    && !(step.TurnAway? && step.site == site)
    && step != Delete(site)
    && (site in s.hub.rows && TurnedAway(s.hub.rows[site].status) ==> !Enrols(s, step, site))
  }

  ghost predicate LeavesAll(net: Network, s: State, steps: seq<Step>, site: Site)
    decreases steps
  {
    steps == [] || (Leaves(net, s, steps[0], site) && LeavesAll(net, Next(net, s, steps[0]), steps[1..], site))
  }

  /** The device is stored with that status. */
  predicate Has(h: Hub, site: Site, status: Status) {
    site in h.rows && h.rows[site].status == status
  }

  lemma TurnLeaves(net: Network, s: State, at: Site, fate: Fate, site: Site, status: Status)
    requires Sound(s.hub) && Has(s.hub, site, status) && Leaves(net, s, Turn(at, fate), site)
    ensures Has(Next(net, s, Turn(at, fate)).hub, site, status)
  {
  }

  lemma StepLeaves(net: Network, s: State, step: Step, site: Site, status: Status)
    requires Sound(s.hub) && Has(s.hub, site, status) && Leaves(net, s, step, site)
    ensures Sound(Next(net, s, step).hub) && Has(Next(net, s, step).hub, site, status)
  {
    var at := StepIsLocal(net, s, step);
    LocalKeepsSound(s.hub, Next(net, s, step).hub, at);
    if step.Turn? {
      TurnLeaves(net, s, step.site, step.fate, site, status);
    }
  }

  lemma {:induction false} StatusStays(net: Network, s: State, steps: seq<Step>, site: Site, status: Status)
    requires Sound(s.hub) && Has(s.hub, site, status) && LeavesAll(net, s, steps, site)
    ensures Sound(RunFrom(net, s, steps).hub) && Has(RunFrom(net, s, steps).hub, site, status)
    decreases steps
  {
    if steps != [] {
      StepLeaves(net, s, steps[0], site, status);
      StatusStays(net, Next(net, s, steps[0]), steps[1..], site, status);
    }
  }

  // ----- what the agent is told -----

  /** The answer to the present token of the device. */
  ghost function Told(net: Network, h: Hub, site: Site): Option<Reply> {
    if site in h.rows then AnswerTo(net, h, h.rows[site].token) else None
  }

  lemma ToldIs(net: Network, h: Hub, site: Site)
    requires Sound(h) && site in h.rows
    ensures Told(net, h, site).Some? && Told(net, h, site).value.status == h.rows[site].status
    ensures h.rows[site].status != Approved ==> Told(net, h, site) == Some(Reply(h.rows[site].status, "", None))
    ensures h.rows[site].status == Approved ==>
              Told(net, h, site) == Some(Reply(Approved, net.url, h.rows[site].key))
  {
    HolderIsUnique(h, site, h.rows[site].token);
  }

  /** A device that was turned away is told so, without key or address, and goes on being told so in every
      continuation until it enrols again, is approved, is turned away again or is deleted. */
  lemma TurnedAwayIsTold(net: Network, s: State, site: Site, to: Status, steps: seq<Step>)
    requires Sound(s.hub) && site in s.hub.rows && TurnedAway(to)
    requires LeavesAll(net, Next(net, s, TurnAway(site, to)), steps, site)
    ensures Told(net, RunFrom(net, Next(net, s, TurnAway(site, to)), steps).hub, site) == Some(Reply(to, "", None))
  {
    var s' := Next(net, s, TurnAway(site, to));
    AdminStepIsLocal(net, s, TurnAway(site, to));
    LocalKeepsSound(s.hub, s'.hub, site);
    StatusStays(net, s', steps, site, to);
    ToldIs(net, RunFrom(net, s', steps).hub, site);
  }

  /** The token stays what it was until the site enrols. */
  lemma TurnedAwayKeepsToken(net: Network, s: State, site: Site, to: Status)
    requires Sound(s.hub) && site in s.hub.rows && TurnedAway(to)
    ensures var h := Next(net, s, TurnAway(site, to)).hub;
            site in h.rows && AnswerTo(net, h, s.hub.rows[site].token) == Some(Reply(to, "", None))
  {
    AdminStepIsLocal(net, s, TurnAway(site, to));
    LocalKeepsSound(s.hub, Next(net, s, TurnAway(site, to)).hub, site);
    ToldIs(net, Next(net, s, TurnAway(site, to)).hub, site);
  }

  /** Enrolling again makes a device that was turned away pending, and leaves any other as it was. */
  lemma EnrollingIsTold(net: Network, s: State, site: Site, fate: Fate)
    requires Sound(s.hub) && Enrols(s, Turn(site, fate), site)
    ensures var h := Next(net, s, Turn(site, fate)).hub;
            && Told(net, h, site).Some?
            && Told(net, h, site).value.status ==
               if site in s.hub.rows && !TurnedAway(s.hub.rows[site].status) then s.hub.rows[site].status else Pending
  {
    EnrollIsLocal(s.hub, site);
    LocalKeepsSound(s.hub, EnrollAt(s.hub, site), site);
    ToldIs(net, EnrollAt(s.hub, site), site);
  }

  /** An approved device is told the address of the network and, when there is a server, its new key; it goes on
      being told that it is approved, with that address, until it is turned away or deleted, even when it
      enrols again. */
  lemma ApprovedIsTold(net: Network, s: State, site: Site, works: bool, steps: seq<Step>)
    requires Sound(s.hub) && site in s.hub.rows && (net.enabled ==> works)
    requires LeavesAll(net, Next(net, s, Approve(site, works)), steps, site)
    ensures var s' := Next(net, s, Approve(site, works));
            && Told(net, s'.hub, site) == Some(Reply(Approved, net.url, if net.enabled then Some(s.hub.keys) else None))
            && Told(net, RunFrom(net, s', steps).hub, site).Some?
            && Told(net, RunFrom(net, s', steps).hub, site).value.status == Approved
            && Told(net, RunFrom(net, s', steps).hub, site).value.control == net.url
  {
    var s' := Next(net, s, Approve(site, works));
    AdminStepIsLocal(net, s, Approve(site, works));
    LocalKeepsSound(s.hub, s'.hub, site);
    ToldIs(net, s'.hub, site);
    StatusStays(net, s', steps, site, Approved);
    ToldIs(net, RunFrom(net, s', steps).hub, site);
  }

  // ----- what the agent does about it -----

  lemma {:induction false} PollsOn(net: Network, s: State, site: Site, row: Row, agent: Agent, n: nat)
    requires Shows(s, site, row, agent) && row.status != Approved
    requires agent.phase.Polling? && agent.phase.st.token == row.token && agent.saved.Some?
    requires agent.saved.value.token == row.token
    ensures Shows(RunFrom(net, s, Turns(site, n)), site, row, agent)
    decreases n
  {
    if n > 0 {
      OwnTurnIs(net, s, site, row, agent);
      RunTurn(net, s, site, n);
      PollsOn(net, Next(net, s, Turn(site, Done)), site, row, agent, n - 1);
    }
  }

  /** An agent that is online leaves the network with the next answer after its device was turned away, and then
      waits for approval as long as nothing else happens. */
  lemma TurnedAwayGoesOffline(net: Network, s: State, site: Site, to: Status, row: Row, agent: Agent, n: nat)
    requires Shows(s, site, row, agent) && TurnedAway(to) && n >= 2
    requires agent.phase.Online? && agent.saved.Some? && agent.saved.value.token == row.token == agent.phase.st.token
    ensures var t := RunFrom(net, Next(net, s, TurnAway(site, to)), Turns(site, n));
            AgentAt(t, site) == Agent(agent.saved, Polling(agent.saved.value))
    ensures var t := Next(net, Next(net, s, TurnAway(site, to)), Turn(site, Done));
            AgentAt(t, site) == Agent(agent.saved, Start)
  {
    var s0 := Next(net, s, TurnAway(site, to));
    AdminStepIsLocal(net, s, TurnAway(site, to));
    LocalKeepsSound(s.hub, s0.hub, site);
    var row0 := s0.hub.rows[site];
    OwnTurnIs(net, s0, site, row0, agent);
    var s1 := Next(net, s0, Turn(site, Done));
    OwnTurnIs(net, s1, site, row0, Agent(agent.saved, Start));
    RunTurn(net, s0, site, n);
    RunTurn(net, s1, site, n - 1);
    PollsOn(net, Next(net, s1, Turn(site, Done)), site, row0, Agent(agent.saved, Polling(agent.saved.value)), n - 2);
  }

  lemma UnknownToken(net: Network, h: Hub, token: nat)
    requires forall a :: a in h.rows ==> h.rows[a].token != token
    ensures RowOf(h, token).None?
  {
  }

  /** An agent that is online when its device is deleted forgets its token with the next answers and enrols again:
      a new pending device. */
  lemma DeletedStartsOver(net: Network, s: State, site: Site, row: Row, agent: Agent)
    requires Shows(s, site, row, agent)
    requires agent.phase.Online? && agent.saved.Some? && agent.phase.st.token == row.token
    ensures var t := RunFrom(net, Next(net, s, Delete(site)), Turns(site, 3));
            && AgentAt(t, site) == Agent(None, TokenReceived(s.hub.tokens))
            && Told(net, t.hub, site) == Some(Reply(Pending, "", None))
  {
    var s0 := Next(net, s, Delete(site));
    AdminStepIsLocal(net, s, Delete(site));
    LocalKeepsSound(s.hub, s0.hub, site);
    forall a | a in s0.hub.rows ensures s0.hub.rows[a].token != row.token {
      assert Apart(s.hub.rows[site], s.hub.rows[a]);
    }
    UnknownToken(net, s0.hub, row.token);
    var s1 := Next(net, s0, Turn(site, Done));
    var s2 := Next(net, s1, Turn(site, Done));
    assert AgentAt(s1, site) == Agent(agent.saved, Refused) && s1.hub == s0.hub;
    assert AgentAt(s2, site) == Agent(None, Start) && s2.hub == s0.hub;
    EnrollingIsTold(net, s2, site, Done);
    var h := Next(net, s2, Turn(site, Done)).hub;
    EnrollShows(net, s2, site);
    ToldIs(net, h, site);
    RunTurn(net, s0, site, 3);
    RunTurn(net, s1, site, 2);
    RunTurn(net, s2, site, 1);
  }
}
