/** Who fetches configurations (hub/dashboard/agentapi.go:56-74, 89-101, 146-156,
    hub/dashboard/portal.go:91-105, 639-642): the runs of `Service` with the configurations that the hub stores
    for each device and the answers it gives. As in `Replica`, the version of a configuration is how many were
    stored for its device, and the wire says what is sent of one. */
module Delivery {
  import opened Common
  import opened Enrollment
  import Links
  import Replica
  import Service

  datatype Answer = Answer(version: nat, config: Links.Config)

  /** For each stored device its configurations, oldest first, and what was fetched with its tokens. */
  datatype State = State(service: Service.State, stored: map<Site, seq<Links.Config>>, fetched: map<Site, seq<Answer>>)

  datatype Step =
    | Serve(step: Service.Step, first: Links.Config)   // `first` is what a new row starts with
    | Save(site: Site, config: Links.Config)
    | Fetch(token: nat)

  const EMPTY := State(Service.EMPTY, map[], map[])

  function At<T>(lists: map<Site, seq<T>>, site: Site): seq<T> {
    if site in lists then lists[site] else []
  }

  function Stored(s: State, site: Site): seq<Links.Config> {
    At(s.stored, site)
  }

  function Fetched(s: State, site: Site): seq<Answer> {
    At(s.fetched, site)
  }

  /** The newest configuration, as it is sent. */
  function Newest(w: Replica.Wire, stored: seq<Links.Config>): seq<Answer> {
    if stored == [] then [] else [Answer(|stored|, w.sent(stored[|stored| - 1]))]
  }

  function StoredAfter(s: State, step: Service.Step, first: Links.Config): map<Site, seq<Links.Config>> {
    match step
    case Enroll(site, _) => if site in s.service.hub.rows then s.stored else s.stored[site := [first]]
    case Delete(site) => s.stored - {site}
    case _ => s.stored
  }

  function FetchedAfter(s: State, step: Service.Step): map<Site, seq<Answer>> {
    if step.Delete? then s.fetched - {step.site} else s.fetched
  }

  ghost function Next(net: Network, w: Replica.Wire, s: State, step: Step): State {
    match step
    case Serve(serve, first) =>
      if !Service.Possible(s.service, serve) then s
      else State(Service.Next(net, s.service, serve), StoredAfter(s, serve, first), FetchedAfter(s, serve))
    case Save(site, config) =>
      if site !in s.service.hub.rows then s
      else s.(stored := s.stored[site := Stored(s, site) + [config]])
    case Fetch(token) =>
      var holder := Holder(s.service.hub, token);
      if holder.None? || !IsApproved(s.service.hub, holder.value) then s
      else
        var site := holder.value;
        s.(fetched := s.fetched[site := Fetched(s, site) + Newest(w, Stored(s, site))])
  }

  ghost function RunFrom(net: Network, w: Replica.Wire, s: State, steps: seq<Step>): State
    decreases steps
  {
    if steps == [] then s else RunFrom(net, w, Next(net, w, s, steps[0]), steps[1..])
  }

  // ----- what every run keeps -----

  predicate IsStored(w: Replica.Wire, stored: seq<Links.Config>, a: Answer) {
    0 < a.version <= |stored| && a.config == w.sent(stored[a.version - 1])
  }

  /** Every answer is a stored configuration under its version, and the versions never go back. */
  predicate InOrder(w: Replica.Wire, stored: seq<Links.Config>, answers: seq<Answer>) {
    && (forall k :: 0 <= k < |answers| ==> IsStored(w, stored, answers[k]))
    && (forall j, k :: 0 <= j < k < |answers| ==> answers[j].version <= answers[k].version)
  }

  /** Every stored device has a configuration, and what was fetched is in order. */
  ghost predicate Kept(w: Replica.Wire, h: Hub, stored: map<Site, seq<Links.Config>>, fetched: map<Site, seq<Answer>>) {
    && stored.Keys == h.rows.Keys && fetched.Keys <= stored.Keys
    && (forall site :: site in stored ==> stored[site] != [])
    && (forall site: Site :: InOrder(w, At(stored, site), At(fetched, site)))
  }

  ghost predicate Good(w: Replica.Wire, s: State) {
    Service.Good(s.service) && Kept(w, s.service.hub, s.stored, s.fetched)
  }

  lemma NewestInOrder(w: Replica.Wire, stored: seq<Links.Config>, answers: seq<Answer>)
    requires InOrder(w, stored, answers)
    ensures InOrder(w, stored, answers + Newest(w, stored))
  {
  }

  lemma MoreInOrder(w: Replica.Wire, stored: seq<Links.Config>, config: Links.Config, answers: seq<Answer>)
    requires InOrder(w, stored, answers)
    ensures InOrder(w, stored + [config], answers)
  {
    forall k | 0 <= k < |answers| ensures IsStored(w, stored + [config], answers[k]) {
      assert IsStored(w, stored, answers[k]);
    }
  }

  lemma ServeKeepsOrder(w: Replica.Wire, s: State, step: Service.Step, first: Links.Config, site: Site)
    requires Kept(w, s.service.hub, s.stored, s.fetched)
    ensures InOrder(w, At(StoredAfter(s, step, first), site), At(FetchedAfter(s, step), site))
  {
    assert InOrder(w, At(s.stored, site), At(s.fetched, site));
  }

  lemma ServeKeepsRest(net: Network, w: Replica.Wire, s: State, step: Service.Step, first: Links.Config)
    requires Kept(w, s.service.hub, s.stored, s.fetched)
    ensures Kept(w, Service.HubAfter(net, s.service.hub, step), StoredAfter(s, step, first), FetchedAfter(s, step))
  {
    Service.RowsAfter(net, s.service.hub, step);
    forall site: Site ensures InOrder(w, At(StoredAfter(s, step, first), site), At(FetchedAfter(s, step), site)) {
      ServeKeepsOrder(w, s, step, first, site);
    }
  }

  lemma ServeKeeps(net: Network, w: Replica.Wire, s: State, step: Service.Step, first: Links.Config)
    requires Good(w, s)
    ensures Good(w, Next(net, w, s, Serve(step, first)))
  {
    Service.StepKeeps(net, s.service, step);
    ServeKeepsRest(net, w, s, step, first);
  }

  lemma SaveKeepsRest(w: Replica.Wire, h: Hub, stored: map<Site, seq<Links.Config>>, fetched: map<Site, seq<Answer>>,
                      at: Site, config: Links.Config)
    requires Kept(w, h, stored, fetched) && at in h.rows
    ensures Kept(w, h, stored[at := At(stored, at) + [config]], fetched)
  {
    var more := stored[at := At(stored, at) + [config]];
    forall site: Site ensures InOrder(w, At(more, site), At(fetched, site)) {
      assert InOrder(w, At(stored, site), At(fetched, site));
      if site == at {
        MoreInOrder(w, At(stored, at), config, At(fetched, at));
      }
    }
  }

  lemma FetchKeepsRest(w: Replica.Wire, h: Hub, stored: map<Site, seq<Links.Config>>, fetched: map<Site, seq<Answer>>,
                       at: Site)
    requires Kept(w, h, stored, fetched) && at in h.rows
    ensures Kept(w, h, stored, fetched[at := At(fetched, at) + Newest(w, At(stored, at))])
  {
    var more := fetched[at := At(fetched, at) + Newest(w, At(stored, at))];
    forall site: Site ensures InOrder(w, At(stored, site), At(more, site)) {
      assert InOrder(w, At(stored, site), At(fetched, site));
      if site == at {
        NewestInOrder(w, At(stored, at), At(fetched, at));
      }
    }
  }

  lemma StepKeeps(net: Network, w: Replica.Wire, s: State, step: Step)
    requires Good(w, s)
    ensures Good(w, Next(net, w, s, step))
  {
    match step
    case Serve(serve, first) => ServeKeeps(net, w, s, serve, first);
    case Save(site, config) =>
      if site in s.service.hub.rows {
        SaveKeepsRest(w, s.service.hub, s.stored, s.fetched, site, config);
      }
    case Fetch(token) =>
      var holder := Holder(s.service.hub, token);
      if holder.Some? {
        FetchKeepsRest(w, s.service.hub, s.stored, s.fetched, holder.value);
      }
  }

  lemma {:induction false} StaysGood(net: Network, w: Replica.Wire, s: State, steps: seq<Step>)
    requires Good(w, s)
    ensures Good(w, RunFrom(net, w, s, steps))
    decreases steps
  {
    if steps != [] {
      StepKeeps(net, w, s, steps[0]);
      StaysGood(net, w, Next(net, w, s, steps[0]), steps[1..]);
    }
  }

  lemma EmptyIsGood(w: Replica.Wire)
    ensures Good(w, EMPTY)
  {
    Service.EmptyIsGood();
  }

  /** In every run, what the tokens of a device fetched are configurations stored for that device, each under
      its version, and never an older one after a newer one. */
  lemma FetchedInOrder(net: Network, w: Replica.Wire, steps: seq<Step>, site: Site)
    ensures var s := RunFrom(net, w, EMPTY, steps); InOrder(w, Stored(s, site), Fetched(s, site))
  {
    EmptyIsGood(w);
    StaysGood(net, w, EMPTY, steps);
  }

  // ----- who fetches -----

  /** The step asks for a configuration with the present token of the device, while it is approved. */
  predicate Fetches(s: State, step: Step, site: Site) {
    step.Fetch? && IsApproved(s.service.hub, site) && s.service.hub.rows[site].token == step.token
  }

  predicate Deletes(step: Step, site: Site) {
    step.Serve? && step.step == Service.Delete(site)
  }

  lemma FetchGives(net: Network, w: Replica.Wire, s: State, token: nat, site: Site)
    requires Sound(s.service.hub) && site in s.service.hub.rows
    ensures Fetched(Next(net, w, s, Fetch(token)), site) ==
            if Fetches(s, Fetch(token), site) then Fetched(s, site) + Newest(w, Stored(s, site)) else Fetched(s, site)
  {
    if Holds(s.service.hub, site, token) {
      HolderIsUnique(s.service.hub, site, token);
    }
  }

  lemma StepFetches(net: Network, w: Replica.Wire, s: State, step: Step, site: Site)
    requires Good(w, s) && site in s.service.hub.rows && !Deletes(step, site)
    ensures Fetched(Next(net, w, s, step), site) ==
            Fetched(s, site) + if Fetches(s, step, site) then Newest(w, Stored(s, site)) else []
  {
    NothingMore(Fetched(s, site));
    match step
    case Fetch(token) => FetchGives(net, w, s, token, site);
    case _ =>
  }

  /** In every run: as long as the device stays, a configuration is fetched for it only with its present token
      while it is approved, and then the newest stored one with its version. */
  lemma OnlyTheApprovedFetch(net: Network, w: Replica.Wire, steps: seq<Step>, step: Step, site: Site)
    requires site in RunFrom(net, w, EMPTY, steps).service.hub.rows && !Deletes(step, site)
    ensures var s := RunFrom(net, w, EMPTY, steps);
            && Fetched(Next(net, w, s, step), site) ==
               Fetched(s, site) + (if Fetches(s, step, site) then Newest(w, Stored(s, site)) else [])
            && Stored(s, site) != []
  {
    EmptyIsGood(w);
    StaysGood(net, w, EMPTY, steps);
    StepFetches(net, w, RunFrom(net, w, EMPTY, steps), step, site);
  }

  /** The step neither approves nor deletes the device. */
  predicate Leaves(net: Network, step: Step, site: Site) {
    step.Serve? ==> Service.Leaves(net, step.step, site)
  }

  lemma NotFetchedWhileNotApproved(net: Network, w: Replica.Wire, s: State, step: Step, site: Site)
    requires Good(w, s) && site in s.service.hub.rows && !IsApproved(s.service.hub, site) && Leaves(net, step, site)
    ensures var t := Next(net, w, s, step);
            && site in t.service.hub.rows && !IsApproved(t.service.hub, site)
            && Fetched(t, site) == Fetched(s, site)
  {
    StepFetches(net, w, s, step, site);
    NothingMore(Fetched(s, site));
    if step.Serve? {
      Service.NothingWhileNotApproved(net, s.service, step.step, site);
    }
  }

  /** A device that is not approved fetches nothing until it is. */
  lemma {:induction false} NothingUntilApproved(net: Network, w: Replica.Wire, s: State, steps: seq<Step>, site: Site)
    requires Good(w, s) && site in s.service.hub.rows && !IsApproved(s.service.hub, site)
    requires forall i :: 0 <= i < |steps| ==> Leaves(net, steps[i], site)
    ensures Fetched(RunFrom(net, w, s, steps), site) == Fetched(s, site)
    decreases steps
  {
    if steps != [] {
      assert Leaves(net, steps[0], site);
      StepKeeps(net, w, s, steps[0]);
      NotFetchedWhileNotApproved(net, w, s, steps[0], site);
      NothingUntilApproved(net, w, Next(net, w, s, steps[0]), steps[1..], site);
    }
  }

  lemma {:induction false} DeadStaysDead(net: Network, w: Replica.Wire, s: State, steps: seq<Step>, token: nat)
    requires Good(w, s) && Service.Dead(s.service.hub, token)
    ensures Service.Dead(RunFrom(net, w, s, steps).service.hub, token)
    decreases steps
  {
    if steps != [] {
      var next := Next(net, w, s, steps[0]);
      StepKeeps(net, w, s, steps[0]);
      if steps[0].Serve? {
        Service.DeadAfter(net, s.service, steps[0].step, token);
      }
      DeadStaysDead(net, w, next, steps[1..], token);
    }
  }

  /** A token that left its device fetches nothing any more. */
  lemma OldTokenFetchesNothing(net: Network, w: Replica.Wire, s: State, step: Service.Step, first: Links.Config,
                               steps: seq<Step>, site: Site)
    requires Good(w, s) && site in s.service.hub.rows
    requires var h := Service.Next(net, s.service, step).hub;
             site in h.rows ==> h.rows[site].token != s.service.hub.rows[site].token
    ensures var t := RunFrom(net, w, Next(net, w, s, Serve(step, first)), steps);
            Next(net, w, t, Fetch(s.service.hub.rows[site].token)) == t
  {
    var s', token := Next(net, w, s, Serve(step, first)), s.service.hub.rows[site].token;
    Service.TokenDies(net, s.service, step, site);
    StepKeeps(net, w, s, Serve(step, first));
    DeadStaysDead(net, w, s', steps, token);
  }

  lemma NewestIsReplica(w: Replica.Wire, r: Replica.State)
    requires r.phase.Behind? && r.history != []
    ensures var a := Newest(w, r.history)[0];
            Replica.Next(w, r, Replica.Fetch(true)).phase == Replica.Fetched(a.version, a.config)
  {
  }

  /** What the device fetches is what its agent goes on with in `Replica`. */
  lemma FetchIsReplica(net: Network, w: Replica.Wire, s: State, token: nat, site: Site, r: Replica.State)
    requires Good(w, s) && Fetches(s, Fetch(token), site)
    requires r.phase.Behind? && r.history == Stored(s, site)
    ensures var got := Fetched(Next(net, w, s, Fetch(token)), site);
            && got != []
            && var a := got[|got| - 1];
               Replica.Next(w, r, Replica.Fetch(true)).phase == Replica.Fetched(a.version, a.config)
  {
    FetchGives(net, w, s, token, site);
    NewestIsReplica(w, r);
  }
}
