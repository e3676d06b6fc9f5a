/** The hand-off of a network key from the hub to an agent that may stop at any point
    (agent/cmd/agent/main.go:394-525, 537-560, agent/internal/portal/portal.go:175-204). A step of an agent
    ends at each request and at each write of its state file, which is the only thing that survives a stop;
    a request may fail before the hub or its answer may be lost after it. One agent runs for each site. */
module Handoff {
  import opened Common
  import opened Enrollment

  /** The state file. */
  datatype Saved = Saved(token: nat, control: string, joined: bool)

  datatype Phase =
    | Start                                                      // reads the state file
    | TokenReceived(token: nat)                                  // enrolled, not written yet
    | Polling(st: Saved)                                         // waits for approval
    | Granted(st: Saved, control: string, key: Option<nat>)      // approved, address not written yet
    | NoKey(st: Saved)                                           // approved, never joined and no key: gives up
    | Connecting(st: Saved, key: Option<nat>)                    // opens the tunnel
    | Joined(st: Saved)                                          // joined with a key, not written yet
    | Written(st: Saved)                                         // written, key not confirmed yet
    | Online(st: Saved)                                          // heartbeats
    | Refused                                                    // token unknown, state file still there

  datatype Agent = Agent(saved: Option<Saved>, phase: Phase)

  datatype State = State(hub: Hub, agents: map<Site, Agent>)

  /** What becomes of the request of a step; only `Done` brings the answer back. */
  datatype Fate = Done | AnswerLost | Failed

  datatype Step =
    | Turn(site: Site, fate: Fate)
    | Crash(site: Site)             // the agent stops, or starts its cycle over
    | Unwritten(site: Site)         // the write that the agent is about to make fails
    | Reset(site: Site)             // the local panel removes the state file
    | Approve(site: Site, works: bool)
    | TurnAway(site: Site, to: Status)
    | Delete(site: Site)
    | Rekey(site: Site, works: bool)

  function AgentAt(s: State, site: Site): Agent {
    if site in s.agents then s.agents[site] else Agent(None, Start)
  }

  // ----- one step of an agent -----

  /** The agent enrols, or resumes with the token it saved. */
  function FromStart(h: Hub, site: Site, saved: Option<Saved>, fate: Fate): (Hub, Agent) {
    if saved.Some? then (h, Agent(saved, Polling(saved.value)))
    else if fate == Failed then (h, Agent(saved, Start))
    else (EnrollAt(h, site), Agent(saved, if fate == Done then TokenReceived(h.tokens) else Start))
  }

  /** The agent asks for its status; `row` is the device its token stands for. */
  function FromPolling(net: Network, row: Option<Row>, saved: Option<Saved>, st: Saved, fate: Fate): Agent {
    if fate != Done then Agent(saved, Start)
    else if row.None? then Agent(saved, Refused)
    else
      var reply := ReplyFor(net, row.value);
      Agent(saved, if reply.status == Approved then Granted(st, reply.control, reply.key) else Polling(st))
  }

  /** The agent notes the address of the network, then needs a key unless it joined before. */
  function FromGranted(saved: Option<Saved>, st: Saved, control: string, key: Option<nat>): Agent {
    var moved := control != "" && control != st.control;
    var st' := if moved then st.(control := control) else st;
    Agent(if moved then Some(st') else saved, if !st'.joined && key.None? then NoKey(st') else Connecting(st', key))
  }

  function FromConnecting(saved: Option<Saved>, st: Saved, key: Option<nat>, fate: Fate): Agent {
    Agent(saved, if fate != Done then Start else if key.Some? then Joined(st.(joined := true)) else Online(st))
  }

  /** The agent confirms the key; it goes on whatever comes back. */
  function FromWritten(h: Hub, holder: Option<Site>, saved: Option<Saved>, st: Saved, fate: Fate): (Hub, Agent) {
    (if fate == Failed || holder.None? then h else AckAt(h, holder.value), Agent(saved, Online(st)))
  }

  function FromOnline(row: Option<Row>, saved: Option<Saved>, st: Saved, fate: Fate): Agent {
    Agent(saved, if fate != Done then Online(st)
                 else if row.None? then Refused
                 else if row.value.status != Approved then Start
                 else Online(st))
  }

  ghost function RowOf(h: Hub, token: nat): Option<Row> {
    var holder := Holder(h, token);
    if holder.Some? && holder.value in h.rows then Some(h.rows[holder.value]) else None
  }

  ghost function AgentTurn(net: Network, h: Hub, site: Site, agent: Agent, fate: Fate): (Hub, Agent) {
    var saved := agent.saved;
    match agent.phase
    case Start => FromStart(h, site, saved, fate)
    case TokenReceived(token) => (h, var st := Saved(token, "", false); Agent(Some(st), Polling(st)))
    case Polling(st) => (h, FromPolling(net, RowOf(h, st.token), saved, st, fate))
    case Granted(st, control, key) => (h, FromGranted(saved, st, control, key))
    case NoKey(_) => (h, Agent(saved, Start))
    case Connecting(st, key) => (h, FromConnecting(saved, st, key, fate))
    case Joined(st) => (h, Agent(Some(st), Written(st)))
    case Written(st) => FromWritten(h, Holder(h, st.token), saved, st, fate)
    case Online(st) => (h, FromOnline(RowOf(h, st.token), saved, st, fate))
    case Refused => (h, Agent(None, Start))
  }

  /** A write that fails: the errors of all but the first are ignored. */
  function LostWrite(agent: Agent): Agent {
    match agent.phase
    case TokenReceived(_) => agent.(phase := Start)
    case Granted(st, control, key) => agent.(phase := FromGranted(agent.saved, st, control, key).phase)
    case Joined(st) => agent.(phase := Written(st))
    case _ => agent
  }

  ghost function Next(net: Network, s: State, step: Step): State {
    match step
    case Turn(site, fate) =>
      var r := AgentTurn(net, s.hub, site, AgentAt(s, site), fate);
      State(r.0, s.agents[site := r.1])
    case Crash(site) => s.(agents := s.agents[site := AgentAt(s, site).(phase := Start)])
    case Unwritten(site) => s.(agents := s.agents[site := LostWrite(AgentAt(s, site))])
    case Reset(site) => s.(agents := s.agents[site := Agent(None, Start)])
    case Approve(site, works) => s.(hub := ApproveAt(net, s.hub, site, works))
    case TurnAway(site, to) => s.(hub := RevokeAt(s.hub, site, if to == Rejected then Rejected else Revoked))
    case Delete(site) => s.(hub := DeleteAt(s.hub, site))
    case Rekey(site, works) => s.(hub := RekeyAt(net, s.hub, site, works))
  }

  const EMPTY := State(Hub(map[], 0, 0), map[])

  ghost function RunFrom(net: Network, s: State, steps: seq<Step>): State
    decreases steps
  {
    if steps == [] then s else RunFrom(net, Next(net, s, steps[0]), steps[1..])
  }

  lemma {:induction false} RunAppend(net: Network, s: State, steps: seq<Step>, more: seq<Step>)
    ensures RunFrom(net, s, steps + more) == RunFrom(net, RunFrom(net, s, steps), more)
    decreases steps
  {
    if steps == [] {
      assert steps + more == more;
    } else {
      assert (steps + more)[1..] == steps[1..] + more;
      RunAppend(net, Next(net, s, steps[0]), steps[1..], more);
    }
  }

  predicate HasJoined(agent: Agent) {
    agent.saved.Some? && agent.saved.value.joined
  }

  /** The step removes no state file of an approved device that has no key left to take, and loses no write
      that would be the first to say that the agent of a stored device joined. All else may be lost. */
  predicate KeepsNote(s: State, step: Step) {
    match step
    case Reset(site) => IsApproved(s.hub, site) ==> s.hub.rows[site].key.Some?
    case Unwritten(site) =>
      AgentAt(s, site).phase.Joined? && site in s.hub.rows ==> HasJoined(AgentAt(s, site))
    case _ => true
  }

  ghost predicate NotesKept(net: Network, s: State, steps: seq<Step>)
    decreases steps
  {
    steps == [] || (KeepsNote(s, steps[0]) && NotesKept(net, Next(net, s, steps[0]), steps[1..]))
  }

  // ----- the hub in every run -----

  lemma TurnIsLocal(net: Network, h: Hub, site: Site, agent: Agent, fate: Fate) returns (at: Site)
    requires Sound(h)
    ensures Local(h, AgentTurn(net, h, site, agent, fate).0, at)
  {
    at := site;
    if agent.phase.Start? {
      EnrollIsLocal(h, site);
    } else if agent.phase.Written? && Holder(h, agent.phase.st.token).Some? {
      at := Holder(h, agent.phase.st.token).value;
      AckIsLocal(h, at);
    }
  }

  lemma AdminStepIsLocal(net: Network, s: State, step: Step)
    requires Sound(s.hub) && !step.Turn?
    ensures Local(s.hub, Next(net, s, step).hub, step.site)
  {
    match step
    case Approve(site, works) => AdminIsLocal(net, s.hub, site, works, Revoked);
    case TurnAway(site, to) => AdminIsLocal(net, s.hub, site, true, if to == Rejected then Rejected else Revoked);
    case Delete(site) => AdminIsLocal(net, s.hub, site, true, Revoked);
    case Rekey(site, works) => AdminIsLocal(net, s.hub, site, works, Revoked);
    case _ =>
  }

  lemma StepIsLocal(net: Network, s: State, step: Step) returns (at: Site)
    requires Sound(s.hub)
    ensures Local(s.hub, Next(net, s, step).hub, at)
  {
    if step.Turn? {
      at := TurnIsLocal(net, s.hub, step.site, AgentAt(s, step.site), step.fate);
    } else {
      at := step.site;
      AdminStepIsLocal(net, s, step);
    }
  }

  /** In every run, whatever stops, resets or fails: a key is stored only while its device is approved and
      until it is confirmed, and no two devices share a token or a key. */
  lemma {:induction false} HubStaysSound(net: Network, s: State, steps: seq<Step>)
    requires Sound(s.hub)
    ensures Sound(RunFrom(net, s, steps).hub)
    decreases steps
  {
    if steps != [] {
      var at := StepIsLocal(net, s, steps[0]);
      LocalKeepsSound(s.hub, Next(net, s, steps[0]).hub, at);
      HubStaysSound(net, Next(net, s, steps[0]), steps[1..]);
    }
  }

  /** The key was made and no device holds it. */
  predicate Gone(h: Hub, key: nat) {
    key < h.keys && forall a :: a in h.rows ==> h.rows[a].key != Some(key)
  }

  lemma {:induction false} GoneStaysGone(net: Network, s: State, steps: seq<Step>, key: nat)
    requires Sound(s.hub) && Gone(s.hub, key)
    ensures Gone(RunFrom(net, s, steps).hub, key)
    decreases steps
  {
    if steps != [] {
      var at := StepIsLocal(net, s, steps[0]);
      LocalKeepsSound(s.hub, Next(net, s, steps[0]).hub, at);
      GoneStaysGone(net, Next(net, s, steps[0]), steps[1..], key);
    }
  }

  /** Once a key has left its device - confirmed, replaced, withdrawn or deleted with it - no later answer of
      the hub to any device shows it, whatever enrols again. */
  lemma NeverHandedOutAgain(net: Network, before: seq<Step>, step: Step, after: seq<Step>, site: Site, key: nat,
                            other: Site)
    requires var h := RunFrom(net, EMPTY, before).hub; site in h.rows && h.rows[site].key == Some(key)
    requires var h := Next(net, RunFrom(net, EMPTY, before), step).hub; site in h.rows ==> h.rows[site].key != Some(key)
    ensures var h := RunFrom(net, Next(net, RunFrom(net, EMPTY, before), step), after).hub;
            other in h.rows ==> ReplyFor(net, h.rows[other]).key != Some(key)
  {
    var s := RunFrom(net, EMPTY, before);
    HubStaysSound(net, EMPTY, before);
    var s' := Next(net, s, step);
    var at := StepIsLocal(net, s, step);
    LocalKeepsSound(s.hub, s'.hub, at);
    assert Known(s.hub, s.hub.rows[site]);
    forall a | a in s'.hub.rows ensures s'.hub.rows[a].key != Some(key) {
      if a != site && a in s.hub.rows {
        assert Apart(s.hub.rows[site], s.hub.rows[a]);
      }
    }
    GoneStaysGone(net, s', after, key);
  }

  // ----- one site in every run -----

  /** No other device has the token. */
  predicate Owns(h: Hub, site: Site, token: nat) {
    token < h.tokens && forall b :: b in h.rows && b != site ==> h.rows[b].token != token
  }

  /** The token is the site's own: no other device has it, and the device of the site, if any, has it. */
  predicate Fits(h: Hub, site: Site, token: nat) {
    Owns(h, site, token) && (site in h.rows ==> h.rows[site].token == token)
  }

  /** The state file holds the token of `st` and says of joining what `st` says; the address may be older. */
  predicate OnFile(agent: Agent, st: Saved) {
    agent.saved.Some? && agent.saved.value.token == st.token && agent.saved.value.joined == st.joined
  }

  /** An approved device whose agent has not saved that it joined holds a key still to be delivered. */
  predicate KeyAwaits(h: Hub, site: Site, agent: Agent) {
    site in h.rows && h.rows[site].status == Approved && !HasJoined(agent) ==>
      h.rows[site].key.Some? && !h.rows[site].delivered
  }

  /** The agent has joined, and its state file says so unless its device is gone. */
  predicate Noted(h: Hub, site: Site, agent: Agent, st: Saved) {
    && st.joined && agent.saved.Some? && agent.saved.value.token == st.token
    && (agent.saved.value.joined || site !in h.rows)
  }

  /** What the agent has in memory agrees with its state file; without having joined it goes on only with a
      key, and it never gives up for want of one. */
  predicate PhaseSound(h: Hub, site: Site, agent: Agent) {
    match agent.phase
    case Start => true
    case TokenReceived(token) => agent.saved.None? && Fits(h, site, token)
    case Polling(st) => OnFile(agent, st)
    case Granted(st, _, key) => OnFile(agent, st) && (st.joined || key.Some?)
    case NoKey(_) => false
    case Connecting(st, key) => OnFile(agent, st) && (st.joined || key.Some?)
    case Joined(st) => st.joined && agent.saved.Some? && agent.saved.value.token == st.token
    case Written(st) => Noted(h, site, agent, st)
    case Online(st) => Noted(h, site, agent, st)
    case Refused => agent.saved.Some? && site !in h.rows
  }

  predicate SiteSound(h: Hub, site: Site, agent: Agent) {
    && (agent.saved.Some? ==> Fits(h, site, agent.saved.value.token))
    && PhaseSound(h, site, agent)
    && KeyAwaits(h, site, agent)
  }

  /** With its own token the agent finds its own device or none. */
  lemma FindsItself(h: Hub, site: Site, token: nat)
    requires Sound(h) && Fits(h, site, token)
    ensures Holder(h, token) == if site in h.rows then Some(site) else None
    ensures RowOf(h, token) == if site in h.rows then Some(h.rows[site]) else None
  {
    if site in h.rows {
      HolderIsUnique(h, site, token);
    }
  }

  lemma FitsAfter(h: Hub, h': Hub, at: Site, site: Site, token: nat)
    requires Local(h, h', at) && Fits(h, site, token) && (at == site ==> at !in h'.rows || h'.rows[at].token == token)
    ensures Fits(h', site, token)
  {
  }

  /** What happens at another site leaves a site sound. */
  lemma OtherSite(h: Hub, h': Hub, at: Site, site: Site, agent: Agent)
    requires Local(h, h', at) && at != site && SiteSound(h, site, agent)
    ensures SiteSound(h', site, agent)
  {
    if agent.saved.Some? {
      FitsAfter(h, h', at, site, agent.saved.value.token);
    }
    if agent.phase.TokenReceived? {
      FitsAfter(h, h', at, site, agent.phase.token);
    }
  }

  /** Nor does a change of the site's own row that keeps its token and, if needed, a key. */
  lemma OwnRow(h: Hub, h': Hub, site: Site, agent: Agent)
    requires Local(h, h', site) && SiteSound(h, site, agent) && KeyAwaits(h', site, agent)
    requires site in h'.rows ==> site in h.rows && h'.rows[site].token == h.rows[site].token
    ensures SiteSound(h', site, agent)
  {
    if agent.saved.Some? {
      FitsAfter(h, h', site, site, agent.saved.value.token);
    }
    if agent.phase.TokenReceived? {
      FitsAfter(h, h', site, site, agent.phase.token);
    }
  }

  lemma StartKeeps(net: Network, h: Hub, site: Site, agent: Agent, fate: Fate)
    requires Sound(h) && SiteSound(h, site, agent) && agent.phase.Start?
    ensures var r := FromStart(h, site, agent.saved, fate); SiteSound(r.0, site, r.1)
  {
  }

  /** The key an agent needs is there when the hub answers. */
  lemma PollingKeeps(net: Network, h: Hub, site: Site, agent: Agent, fate: Fate)
    requires Sound(h) && SiteSound(h, site, agent) && agent.phase.Polling?
    ensures SiteSound(h, site, FromPolling(net, RowOf(h, agent.phase.st.token), agent.saved, agent.phase.st, fate))
  {
    FindsItself(h, site, agent.phase.st.token);
  }

  lemma GrantedKeeps(h: Hub, site: Site, agent: Agent)
    requires SiteSound(h, site, agent) && agent.phase.Granted?
    ensures SiteSound(h, site, FromGranted(agent.saved, agent.phase.st, agent.phase.control, agent.phase.key))
  {
  }

  /** The key is confirmed only after the agent saved that it joined. */
  lemma WrittenKeeps(h: Hub, site: Site, agent: Agent, fate: Fate)
    requires Sound(h) && SiteSound(h, site, agent) && agent.phase.Written?
    ensures var r := FromWritten(h, Holder(h, agent.phase.st.token), agent.saved, agent.phase.st, fate);
            SiteSound(r.0, site, r.1)
  {
    FindsItself(h, site, agent.phase.st.token);
    AckIsLocal(h, site);
    OwnRow(h, AckAt(h, site), site, agent);
  }

  lemma OnlineKeeps(h: Hub, site: Site, agent: Agent, fate: Fate)
    requires Sound(h) && SiteSound(h, site, agent) && agent.phase.Online?
    ensures SiteSound(h, site, FromOnline(RowOf(h, agent.phase.st.token), agent.saved, agent.phase.st, fate))
  {
    FindsItself(h, site, agent.phase.st.token);
  }

  lemma TurnKeeps(net: Network, h: Hub, site: Site, agent: Agent, fate: Fate)
    requires Sound(h) && SiteSound(h, site, agent)
    ensures var r := AgentTurn(net, h, site, agent, fate); SiteSound(r.0, site, r.1)
  {
    match agent.phase
    case Start => StartKeeps(net, h, site, agent, fate);
    case Polling(_) => PollingKeeps(net, h, site, agent, fate);
    case Granted(_, _, _) => GrantedKeeps(h, site, agent);
    case Written(_) => WrittenKeeps(h, site, agent, fate);
    case Online(_) => OnlineKeeps(h, site, agent, fate);
    case _ =>
  }

  lemma TurnIsOwn(net: Network, h: Hub, site: Site, agent: Agent, fate: Fate)
    requires Sound(h) && SiteSound(h, site, agent)
    ensures Local(h, AgentTurn(net, h, site, agent, fate).0, site)
  {
    if agent.phase.Written? {
      FindsItself(h, site, agent.phase.st.token);
    }
    var at := TurnIsLocal(net, h, site, agent, fate);
  }

  ghost predicate AllSound(s: State) {
    Sound(s.hub) && forall site: Site :: SiteSound(s.hub, site, AgentAt(s, site))
  }

  lemma AdminKeeps(net: Network, s: State, step: Step, site: Site)
    requires net.enabled && AllSound(s)
    requires step.Approve? || step.TurnAway? || step.Delete? || step.Rekey?
    ensures Sound(Next(net, s, step).hub) && SiteSound(Next(net, s, step).hub, site, AgentAt(s, site))
  {
    var h, h', agent := s.hub, Next(net, s, step).hub, AgentAt(s, site);
    AdminStepIsLocal(net, s, step);
    LocalKeepsSound(h, h', step.site);
    assert SiteSound(h, site, agent);
    if step.site != site {
      OtherSite(h, h', step.site, site, agent);
    } else {
      OwnRow(h, h', site, agent);
    }
  }

  lemma StepKeeps(net: Network, s: State, step: Step)
    requires net.enabled && AllSound(s) && KeepsNote(s, step)
    ensures AllSound(Next(net, s, step))
  {
    var s' := Next(net, s, step);
    forall site: Site ensures Sound(s'.hub) && SiteSound(s'.hub, site, AgentAt(s', site)) {
      assert SiteSound(s.hub, site, AgentAt(s, site));
      match step
      case Turn(at, fate) =>
        assert SiteSound(s.hub, at, AgentAt(s, at));
        TurnIsOwn(net, s.hub, at, AgentAt(s, at), fate);
        LocalKeepsSound(s.hub, s'.hub, at);
        if at == site {
          TurnKeeps(net, s.hub, site, AgentAt(s, site), fate);
        } else {
          OtherSite(s.hub, s'.hub, at, site, AgentAt(s, site));
        }
      case Crash(at) =>
      case Unwritten(at) =>
      case Reset(at) =>
      case _ => AdminKeeps(net, s, step, site);
    }
    assert SiteSound(s'.hub, step.site, AgentAt(s', step.site));
  }

  lemma {:induction false} StaysSound(net: Network, s: State, steps: seq<Step>)
    requires net.enabled && AllSound(s) && NotesKept(net, s, steps)
    ensures AllSound(RunFrom(net, s, steps))
    decreases steps
  {
    if steps != [] {
      StepKeeps(net, s, steps[0]);
      StaysSound(net, Next(net, s, steps[0]), steps[1..]);
    }
  }

  /** Crash-safe hand-off: with a Headscale server and the note of joining kept, in every run with stops, losses
      and resets anywhere else, an approved device whose state file does not say it joined holds a key still
      to be delivered, and no agent ever gives up for want of a key. */
  lemma KeyAlwaysAwaits(net: Network, steps: seq<Step>, site: Site)
    requires net.enabled && NotesKept(net, EMPTY, steps)
    ensures var s := RunFrom(net, EMPTY, steps);
            KeyAwaits(s.hub, site, AgentAt(s, site)) && !AgentAt(s, site).phase.NoKey?
  {
    StaysSound(net, EMPTY, steps);
    var s := RunFrom(net, EMPTY, steps);
    assert SiteSound(s.hub, site, AgentAt(s, site));
  }

  // ----- the hand-off completes -----

  /** The site has the row and the agent. */
  ghost predicate Shows(s: State, site: Site, row: Row, agent: Agent) {
    Sound(s.hub) && site in s.hub.rows && s.hub.rows[site] == row && AgentAt(s, site) == agent
  }

  /** All that the agent remembers is the token of the row. */
  predicate Matches(row: Row, agent: Agent) {
    && (agent.saved.Some? ==> agent.saved.value.token == row.token)
    && match agent.phase
       case Start => agent.saved.Some?
       case TokenReceived(token) => token == row.token
       case Refused => false
       case Polling(st) => st.token == row.token
       case Granted(st, _, _) => st.token == row.token
       case NoKey(st) => st.token == row.token && agent.saved.Some?
       case Connecting(st, _) => st.token == row.token
       case Joined(st) => st.token == row.token
       case Written(st) => st.token == row.token
       case Online(st) => st.token == row.token && agent.saved.Some?
  }

  /** A turn in which nothing is lost, seen from the site. */
  function OwnTurn(net: Network, row: Row, agent: Agent): (Row, Agent)
    requires Matches(row, agent)
  {
    var saved := agent.saved;
    match agent.phase
    case Start => (row, Agent(saved, Polling(saved.value)))
    case TokenReceived(token) => (row, var st := Saved(token, "", false); Agent(Some(st), Polling(st)))
    case Polling(st) => (row, FromPolling(net, Some(row), saved, st, Done))
    case Granted(st, control, key) => (row, FromGranted(saved, st, control, key))
    case NoKey(_) => (row, Agent(saved, Start))
    case Connecting(st, key) => (row, FromConnecting(saved, st, key, Done))
    case Joined(st) => (row, Agent(Some(st), Written(st)))
    case Written(st) => (row.(key := None, delivered := true), Agent(saved, Online(st)))
    case Online(st) => (row, FromOnline(Some(row), saved, st, Done))
  }

  lemma OwnTurnIs(net: Network, s: State, site: Site, row: Row, agent: Agent)
    requires Shows(s, site, row, agent) && Matches(row, agent)
    ensures var r := OwnTurn(net, row, agent); Shows(Next(net, s, Turn(site, Done)), site, r.0, r.1)
  {
    HolderIsUnique(s.hub, site, row.token);
    var at := StepIsLocal(net, s, Turn(site, Done));
    LocalKeepsSound(s.hub, Next(net, s, Turn(site, Done)).hub, at);
  }

  lemma EnrollShows(net: Network, s: State, site: Site)
    requires Sound(s.hub) && AgentAt(s, site) == Agent(None, Start)
    ensures var token := s.hub.tokens;
            var row := if site in s.hub.rows then Enrolled(s.hub.rows[site], token)
                       else Row(Pending, token, None, false);
            Shows(Next(net, s, Turn(site, Done)), site, row, Agent(None, TokenReceived(token)))
  {
    EnrollIsLocal(s.hub, site);
    LocalKeepsSound(s.hub, EnrollAt(s.hub, site), site);
  }

  function Turns(site: Site, n: nat): seq<Step> {
    if n == 0 then [] else [Turn(site, Done)] + Turns(site, n - 1)
  }

  lemma RunTurn(net: Network, s: State, site: Site, n: nat)
    requires n > 0
    ensures RunFrom(net, s, Turns(site, n)) == RunFrom(net, Next(net, s, Turn(site, Done)), Turns(site, n - 1))
  {
    assert Turns(site, n)[1..] == Turns(site, n - 1);
  }

  /** Approved, with a key to come unless the agent joined before. */
  predicate Ready(row: Row, agent: Agent) {
    && Matches(row, agent) && RowSound(row) && row.status == Approved
    && (match agent.phase
        case Start => agent.saved.value.joined || row.key.Some?
        case TokenReceived(_) => row.key.Some?
        case Polling(st) => agent.saved == Some(st) && (st.joined || row.key.Some?)
        case Granted(st, control, key) => agent.saved == Some(st) && key == row.key && (st.joined || key.Some?)
        case Connecting(st, key) => agent.saved == Some(st) && key == row.key && (st.joined || key.Some?)
        case Joined(st) => st.joined
        case Written(st) => st.joined && agent.saved == Some(st)
        case Online(st) => st.joined && agent.saved == Some(st) && row.key.None?
        case _ => false)
  }

  /** The turns left before the agent is online. */
  function Left(agent: Agent): nat {
    match agent.phase
    case TokenReceived(_) => 6
    case Start => 6
    case Polling(_) => 5
    case Granted(_, _, _) => 4
    case Connecting(_, _) => 3
    case Joined(_) => 2
    case Written(_) => 1
    case _ => 0
  }

  /** Once approved, the agent goes by the address of the network. */
  predicate Addressed(net: Network, agent: Agent) {
    match agent.phase
    case Granted(_, control, _) => control == net.url
    case Connecting(st, _) => net.url != "" ==> st.control == net.url
    case Joined(st) => net.url != "" ==> st.control == net.url
    case Written(st) => net.url != "" ==> st.control == net.url
    case Online(st) => net.url != "" ==> st.control == net.url
    case _ => true
  }

  lemma TurnComesCloser(net: Network, row: Row, agent: Agent)
    requires Ready(row, agent) && Addressed(net, agent)
    ensures var r := OwnTurn(net, row, agent);
            Ready(r.0, r.1) && Addressed(net, r.1) && (Left(agent) > 0 ==> Left(r.1) < Left(agent))
    ensures Left(agent) == 0 ==> OwnTurn(net, row, agent) == (row, agent)
  {
  }

  /** Online, key confirmed, and on file that it joined and which network. */
  ghost predicate Settled(net: Network, s: State, site: Site) {
    && IsApproved(s.hub, site) && s.hub.rows[site].key.None?
    && AgentAt(s, site).phase.Online? && HasJoined(AgentAt(s, site))
    && (net.url != "" ==> AgentAt(s, site).saved.value.control == net.url)
  }

  lemma {:induction false} TurnsSettle(net: Network, s: State, site: Site, row: Row, agent: Agent, n: nat)
    requires Shows(s, site, row, agent) && Ready(row, agent) && Addressed(net, agent) && n >= Left(agent)
    ensures Settled(net, RunFrom(net, s, Turns(site, n)), site)
    decreases n
  {
    if n > 0 {
      var r := OwnTurn(net, row, agent);
      OwnTurnIs(net, s, site, row, agent);
      TurnComesCloser(net, row, agent);
      RunTurn(net, s, site, n);
      TurnsSettle(net, Next(net, s, Turn(site, Done)), site, r.0, r.1, n - 1);
    }
  }

  predicate NoReset(steps: seq<Step>) {
    forall i :: 0 <= i < |steps| ==> !steps[i].Reset?
  }

  /** The hand-off completes: wherever a run has left an approved device, an agent that starts again and is
      not disturbed for seven turns ends up online, with its state file saying that it joined and which
      network, and its key confirmed. A key connects one node, and a reset removes the node together with the
      state file, so these are runs without resets. */
  lemma HandoffCompletes(net: Network, steps: seq<Step>, site: Site)
    requires net.enabled && NotesKept(net, EMPTY, steps) && NoReset(steps)
    requires var s := RunFrom(net, EMPTY, steps);
             site in s.hub.rows && s.hub.rows[site].status == Approved && AgentAt(s, site).phase.Start?
    ensures Settled(net, RunFrom(net, EMPTY, steps + Turns(site, 7)), site)
  {
    var s := RunFrom(net, EMPTY, steps);
    RunAppend(net, EMPTY, steps, Turns(site, 7));
    StaysSound(net, EMPTY, steps);
    var row, agent := s.hub.rows[site], AgentAt(s, site);
    assert SiteSound(s.hub, site, agent);
    if agent.saved.Some? {
      TurnsSettle(net, s, site, row, agent, 7);
    } else {
      EnrollShows(net, s, site);
      RunTurn(net, s, site, 7);
      var token := s.hub.tokens;
      var next := Next(net, s, Turn(site, Done));
      TurnsSettle(net, next, site, Enrolled(row, token), Agent(None, TokenReceived(token)), 6);
    }
  }
}
