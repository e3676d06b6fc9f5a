/** What the portal accepts as a device configuration (hub/dashboard/portal.go:576-643) and what an agent
    accepts from the portal (agent/internal/config/config.go:189-211). Address parsing belongs to the Go
    library: `isIP` stands for `net.ParseIP` and `splits` for `net.SplitHostPort` succeeding. */
module Saving {
  import opened Common
  import opened Links
  import Access
  import Convergence
  import DeviceConfigs
  import Slugs

  datatype SubProblem = BadIP | BadPort | BadListen | NameTaken

  datatype ForwardProblem = BadProto | Incomplete | PortTaken(port: int, other: string, who: string)

  datatype Refusal = SubRefused(at: nat, why: SubProblem) | ForwardRefused(index: nat, reason: ForwardProblem)

  predicate IsPort(n: int) {
    0 < n <= 65535
  }

  function CheckSub(subs: seq<SubDevice>, i: nat, isIP: string -> bool): Option<SubProblem>
    requires i < |subs|
  {
    var sd := subs[i];
    if !isIP(TrimSpace(sd.ip)) then Some(BadIP)
    else if !IsPort(sd.port) then Some(BadPort)
    else if sd.expose && sd.listen != 0 && !IsPort(sd.listen) then Some(BadListen)
    else if exists k :: 0 <= k < i && subs[k].name == sd.name then Some(NameTaken)
    else None
  }

  function Trimmed(sd: SubDevice): SubDevice {
    sd.(ip := TrimSpace(sd.ip))
  }

  function TrimmedAll(subs: seq<SubDevice>): seq<SubDevice> {
    seq(|subs|, i requires 0 <= i < |subs| => Trimmed(subs[i]))
  }

  function WithProto(f: Forward): Forward {
    var p := Lower(TrimSpace(f.proto));
    f.(proto := if p == "" then "tcp" else p)
  }

  function WithProtos(fs: seq<Forward>): seq<Forward> {
    seq(|fs|, i requires 0 <= i < |fs| => WithProto(fs[i]))
  }

  function PortKey(proto: string, listen: int): string {
    proto + "/" + Decimal(listen)
  }

  function KeyOf(f: Forward): string {
    PortKey(f.proto, f.listen)
  }

  function Who(f: Forward): string {
    if f.sub != "" then "sous-appareil « " + f.sub + " »" else "forward « " + f.name + " »"
  }

  function Keys(fs: seq<Forward>): seq<string> {
    seq(|fs|, i requires 0 <= i < |fs| => KeyOf(fs[i]))
  }

  function Owners(fs: seq<Forward>): seq<string> {
    seq(|fs|, i requires 0 <= i < |fs| => Who(fs[i]))
  }

  /** The ports taken by the first `n` forwards, each with who took it. */
  function Taken(fs: seq<Forward>, n: nat): map<string, string>
    requires n <= |fs|
  {
    Table(Keys(fs), Owners(fs), n)
  }

  /** The first check that a forward with its protocol put in order fails, given the ports taken. */
  function CheckOne(f: Forward, taken: map<string, string>): Option<ForwardProblem> {
    if f.proto != "tcp" && f.proto != "udp" then Some(BadProto)
    else if !IsPort(f.listen) || !Contains(f.target, ':') || f.name == "" then Some(Incomplete)
    else if KeyOf(f) in taken then Some(PortTaken(f.listen, taken[KeyOf(f)], Who(f)))
    else None
  }

  function CheckForward(fs: seq<Forward>, i: nat): Option<ForwardProblem>
    requires i < |fs|
  {
    CheckOne(fs[i], Taken(fs, i))
  }

  // ----- apiSaveDeviceConfig -----

  /** The configuration as it stands when its sub-devices are checked. */
  function Prepared(raw: Config, slug: string): Config {
    var n := Normalized(raw);
    n.(name := if n.name == "" then slug else n.name,
       heartbeatSeconds := if n.heartbeatSeconds < 5 then 15 else n.heartbeatSeconds)
  }

  function Rebuilt(raw: Config, slug: string): Config {
    var p := Prepared(raw, slug);
    Access.Built(p.(subDevices := TrimmedAll(p.subDevices)))
  }

  /** What is written to the device row when every check passes. */
  function Stored(raw: Config, slug: string): Config {
    var b := Rebuilt(raw, slug);
    b.(forwards := WithProtos(b.forwards),
       update := if b.update.checkHours <= 0 then b.update.(checkHours := 1) else b.update)
  }

  predicate SubsPass(raw: Config, slug: string, n: nat, isIP: string -> bool) {
    var subs := Prepared(raw, slug).subDevices;
    forall i :: 0 <= i < n && i < |subs| ==> CheckSub(subs, i, isIP) == None
  }

  predicate Fine(fs: seq<Forward>, i: nat)
    requires i < |fs|
  {
    CheckForward(fs, i) == None
  }

  predicate ForwardsPass(fs: seq<Forward>, n: nat) {
    forall i :: 0 <= i < n && i < |fs| ==> Fine(fs, i)
  }

  /** Every check of the handler passes. */
  predicate Accepted(raw: Config, slug: string, isIP: string -> bool) {
    && SubsPass(raw, slug, |Prepared(raw, slug).subDevices|, isIP)
    && ForwardsPass(Stored(raw, slug).forwards, |Stored(raw, slug).forwards|)
  }

  /** The answer of the handler: what it stores, or the first check that fails. */
  predicate Answers(raw: Config, slug: string, isIP: string -> bool, r: Result<Config, Refusal>) {
    var subs, fs := Prepared(raw, slug).subDevices, Stored(raw, slug).forwards;
    match r
    case Ok(c) => c == Stored(raw, slug) && Accepted(raw, slug, isIP)
    case Err(SubRefused(i, why)) =>
      i < |subs| && CheckSub(subs, i, isIP) == Some(why) && SubsPass(raw, slug, i, isIP)
    case Err(ForwardRefused(i, why)) =>
      && SubsPass(raw, slug, |subs|, isIP)
      && i < |fs| && CheckForward(fs, i) == Some(why) && ForwardsPass(fs, i)
  }

  method CheckSubDevices(cfg: DeviceConfigs.DeviceConfig, isIP: string -> bool) returns (bad: Option<(nat, SubProblem)>)
    modifies cfg`subDevices
    ensures var subs := old(cfg.subDevices);
            match bad
            case None =>
              cfg.subDevices == TrimmedAll(subs) && forall i :: 0 <= i < |subs| ==> CheckSub(subs, i, isIP) == None
            case Some((at, why)) =>
              && at < |subs| && CheckSub(subs, at, isIP) == Some(why)
              && forall i :: 0 <= i < at ==> CheckSub(subs, i, isIP) == None
  {
    ghost var subs := cfg.subDevices;
    var names: set<string> := {};
    for i := 0 to |cfg.subDevices|
      invariant |cfg.subDevices| == |subs|
      invariant forall k :: 0 <= k < i ==> cfg.subDevices[k] == Trimmed(subs[k])
      invariant forall k :: i <= k < |subs| ==> cfg.subDevices[k] == subs[k]
      invariant forall k :: 0 <= k < i ==> CheckSub(subs, k, isIP) == None
      invariant names == set k | 0 <= k < i :: subs[k].name
    {
      var sd := cfg.subDevices[i];
      if !isIP(TrimSpace(sd.ip)) {
        return Some((i, BadIP));
      }
      if sd.port <= 0 || sd.port > 65535 {
        return Some((i, BadPort));
      }
      if sd.expose && sd.listen != 0 && (sd.listen < 1 || sd.listen > 65535) {
        return Some((i, BadListen));
      }
      if sd.name in names {
        return Some((i, NameTaken));
      }
      names := names + {sd.name};
      cfg.subDevices := cfg.subDevices[i := sd.(ip := TrimSpace(sd.ip))];
    }
    return None;
  }

  lemma TakenNone(fs: seq<Forward>)
    ensures Taken(fs, 0) == map[]
  {
  }

  lemma TakenNext(fs: seq<Forward>, i: nat)
    requires i < |fs|
    ensures Taken(fs, i + 1) == Taken(fs, i)[KeyOf(fs[i]) := Who(fs[i])]
  {
  }

  lemma PassesNext(fs: seq<Forward>, i: nat)
    requires i < |fs| && ForwardsPass(fs, i) && CheckForward(fs, i) == None
    ensures ForwardsPass(fs, i + 1)
  {
  }

  /** The checks on one forward, protocol first. */
  method ReadForward(g: Forward, seen: map<string, string>)
    returns (f: Forward, bad: Option<ForwardProblem>, key: string, who: string)
    ensures f == WithProto(g) && bad == CheckOne(f, seen) && key == KeyOf(f) && who == Who(f)
  {
    f := g.(proto := Lower(TrimSpace(g.proto)));
    if f.proto == "" {
      f := f.(proto := "tcp");
    }
    bad := None;
    if f.proto != "tcp" && f.proto != "udp" {
      bad := Some(BadProto);
    } else if f.listen <= 0 || f.listen > 65535 || !Contains(f.target, ':') || f.name == "" {
      bad := Some(Incomplete);
    }
    who := if f.sub != "" then "sous-appareil « " + f.sub + " »" else "forward « " + f.name + " »";
    key := f.proto + "/" + Decimal(f.listen);
    if bad == None && key in seen {
      bad := Some(PortTaken(f.listen, seen[key], who));
    }
  }

  lemma ReplaceNext<T>(done: seq<T>, left: seq<T>, i: nat)
    requires i < |left| == |done|
    ensures (done[..i] + left[i..])[i := done[i]] == done[..i + 1] + left[i + 1..]
  {
  }

  method CheckForwards(cfg: DeviceConfigs.DeviceConfig) returns (bad: Option<(nat, ForwardProblem)>)
    modifies cfg`forwards
    ensures var fs := WithProtos(old(cfg.forwards));
            match bad
            case None => cfg.forwards == fs && ForwardsPass(fs, |fs|)
            case Some((at, why)) => at < |fs| && CheckForward(fs, at) == Some(why) && ForwardsPass(fs, at)
  {
    hide CheckOne, Taken, KeyOf, Who, WithProto;
    ghost var gs := cfg.forwards;
    ghost var fs := WithProtos(gs);
    TakenNone(fs);
    var seen: map<string, string> := map[];
    for i := 0 to |cfg.forwards|
      invariant |cfg.forwards| == |gs| == |fs| && i <= |gs|
      invariant ForwardsPass(fs, i) && seen == Taken(fs, i)
      invariant cfg.forwards == fs[..i] + gs[i..]
    {
      var f, problem, key, who := ReadForward(cfg.forwards[i], seen);
      if problem.Some? {
        return Some((i, problem.value));
      }
      TakenNext(fs, i);
      seen := seen[key := who];
      PassesNext(fs, i);
      ReplaceNext(fs, gs, i);
      cfg.forwards := cfg.forwards[i := f];
    }
    return None;
  }

  method SaveDeviceConfig(cfg: DeviceConfigs.DeviceConfig, slug: string, isIP: string -> bool)
    returns (r: Result<Config, Refusal>)
    modifies cfg
    ensures Answers(old(cfg.Value()), slug, isIP, r)
    ensures r.Ok? ==> cfg.Value() == r.value
  {
    ghost var raw := cfg.Value();
    cfg.Normalize();
    if cfg.name == "" {
      cfg.name := slug;
    }
    if cfg.heartbeatSeconds < 5 {
      cfg.heartbeatSeconds := 15;
    }
    assert cfg.Value() == Prepared(raw, slug);
    var badSub := CheckSubDevices(cfg, isIP);
    if badSub.Some? {
      return Err(SubRefused(badSub.value.0, badSub.value.1));
    }
    cfg.BuildForwards();
    if cfg.update.checkHours <= 0 {
      cfg.update := cfg.update.(checkHours := 1);
    }
    var badForward := CheckForwards(cfg);
    if badForward.Some? {
      return Err(ForwardRefused(badForward.value.0, badForward.value.1));
    }
    return Ok(cfg.Value());
  }

  // ----- saving, then loading -----

  lemma TcpIsPlain()
    ensures TrimSpace("tcp") == "tcp" && Lower("tcp") == "tcp"
  {
  }

  lemma {:induction false} AccessesAreTcp(subs: seq<SubDevice>, n: nat)
    requires n <= |subs|
    ensures forall k :: 0 <= k < |Access.Accesses(subs, n)| ==> Access.Accesses(subs, n)[k].proto == "tcp"
    decreases n
  {
    if n > 0 {
      AccessesAreTcp(subs, n - 1);
    }
  }

  lemma TcpStays(fs: seq<Forward>)
    requires forall k :: 0 <= k < |fs| ==> fs[k].proto == "tcp"
    ensures WithProtos(fs) == fs
  {
    TcpIsPlain();
  }

  lemma ProtosAppend(fs: seq<Forward>, gs: seq<Forward>)
    ensures WithProtos(fs + gs) == WithProtos(fs) + WithProtos(gs)
  {
  }

  /** Putting protocols in order leaves the accesses alone: what is stored is rebuilt from the trimmed
      sub-devices, with the free forwards in order behind. */
  lemma StoredIsBuilt(raw: Config, slug: string)
    ensures var p := Prepared(raw, slug);
            Access.BuiltFrom(Stored(raw, slug), TrimmedAll(p.subDevices), WithProtos(Access.FreeOf(p.forwards)))
  {
    var p := Prepared(raw, slug);
    var subs, free := TrimmedAll(p.subDevices), Access.FreeOf(p.forwards);
    AccessesAreTcp(subs, |subs|);
    TcpStays(Access.Accesses(subs, |subs|));
    ProtosAppend(Access.Accesses(subs, |subs|), free);
    Access.FreeOfIsFree(p.forwards);
  }

  /** The handler refuses two sub-devices of one name, and none is without. */
  lemma AcceptedNamesDiffer(raw: Config, slug: string, isIP: string -> bool)
    requires Accepted(raw, slug, isIP)
    ensures DistinctNames(Prepared(raw, slug).subDevices)
  {
    var subs := Prepared(raw, slug).subDevices;
    LinkFrame(Base(raw), raw.forwards);
    BaseIsNamed(raw);
    forall i, j | 0 <= i < j < |subs| ensures subs[i].name != subs[j].name {
      assert CheckSub(subs, j, isIP) == None;
    }
  }

  /** Saving then loading, through the handler: every sub-device that can be rebuilt is stored and loaded
      exposed, its listen port defaulted; and the load changes nothing at all of what was stored exactly when no
      free forward of it targets a sub-device that is not exposed. */
  lemma SaveThenLoad(raw: Config, slug: string)
    requires DistinctNames(Prepared(raw, slug).subDevices)
    ensures var p, s := Prepared(raw, slug), Stored(raw, slug);
            var n := Normalized(s);
            && |n.subDevices| == |s.subDevices| == |p.subDevices|
            && (forall j :: 0 <= j < |s.subDevices| && s.subDevices[j].expose ==> n.subDevices[j] == s.subDevices[j])
            && (forall j :: 0 <= j < |p.subDevices| && Access.Kept(Trimmed(p.subDevices[j])) ==>
                  var sd := Trimmed(p.subDevices[j]);
                  s.subDevices[j] == sd.(listen := if sd.listen <= 0 then sd.port else sd.listen))
            && (n == s <==> !Access.Claimed(s.subDevices, s.forwards))
  {
    var p := Prepared(raw, slug);
    var subs := TrimmedAll(p.subDevices);
    StoredIsBuilt(raw, slug);
    assert DistinctNames(subs) by {
      forall i | 0 <= i < |subs| ensures subs[i].name == p.subDevices[i].name {}
    }
    Access.LoadKeepsBuilt(Stored(raw, slug), subs, WithProtos(Access.FreeOf(p.forwards)));
  }

  // ----- the agent's side -----

  datatype AgentForward = AgentForward(name: string, proto: string, listen: int, target: string)

  datatype AgentProblem = NoName | WrongProto | WrongListen | WrongTarget | SamePort

  /** A forward of the received configuration, as `reloadConfig` hands it to `ValidateForwards`. */
  function Received(f: Forward): AgentForward {
    AgentForward(f.name, Lower(f.proto), f.listen, f.target)
  }

  function ReceivedAll(fs: seq<Forward>): seq<AgentForward> {
    seq(|fs|, i requires 0 <= i < |fs| => Received(fs[i]))
  }

  function AgentCheck(fs: seq<AgentForward>, i: nat, splits: string -> bool): Option<AgentProblem>
    requires i < |fs|
  {
    var f := fs[i];
    if f.name == "" then Some(NoName)
    else if f.proto != "tcp" && f.proto != "udp" then Some(WrongProto)
    else if !IsPort(f.listen) then Some(WrongListen)
    else if !splits(f.target) then Some(WrongTarget)
    else if exists k :: 0 <= k < i && PortKey(fs[k].proto, fs[k].listen) == PortKey(f.proto, f.listen) then
      Some(SamePort)
    else None
  }

  predicate AgentAccepts(fs: seq<AgentForward>, splits: string -> bool) {
    forall i :: 0 <= i < |fs| ==> AgentCheck(fs, i, splits) == None
  }

  method ValidateForwards(fs: seq<AgentForward>, splits: string -> bool) returns (bad: Option<(nat, AgentProblem)>)
    ensures bad.None? <==> AgentAccepts(fs, splits)
    ensures bad.Some? ==>
      && bad.value.0 < |fs| && AgentCheck(fs, bad.value.0, splits) == Some(bad.value.1)
      && forall k :: 0 <= k < bad.value.0 ==> AgentCheck(fs, k, splits) == None
  {
    var seen: set<string> := {};
    for i := 0 to |fs|
      invariant forall k :: 0 <= k < i ==> AgentCheck(fs, k, splits) == None
      invariant seen == set k | 0 <= k < i :: PortKey(fs[k].proto, fs[k].listen)
    {
      var f := fs[i];
      if f.name == "" {
        assert AgentCheck(fs, i, splits) == Some(NoName);
        return Some((i, NoName));
      }
      if f.proto != "tcp" && f.proto != "udp" {
        assert AgentCheck(fs, i, splits) == Some(WrongProto);
        return Some((i, WrongProto));
      }
      if f.listen <= 0 || f.listen > 65535 {
        assert AgentCheck(fs, i, splits) == Some(WrongListen);
        return Some((i, WrongListen));
      }
      if !splits(f.target) {
        assert AgentCheck(fs, i, splits) == Some(WrongTarget);
        return Some((i, WrongTarget));
      }
      var key := f.proto + "/" + Decimal(f.listen);
      if key in seen {
        assert AgentCheck(fs, i, splits) == Some(SamePort);
        return Some((i, SamePort));
      }
      seen := seen + {key};
    }
    return None;
  }

  // ----- accepted by the hub, accepted by the agent -----

  /** The forwards differ at most in their marks. */
  predicate SameButMarks(fs: seq<Forward>, gs: seq<Forward>) {
    |gs| == |fs| && forall k :: 0 <= k < |fs| ==> gs[k] == fs[k].(sub := gs[k].sub)
  }

  lemma SameThrough(fs: seq<Forward>, gs: seq<Forward>, hs: seq<Forward>)
    requires SameButMarks(fs, gs) && SameButMarks(gs, hs)
    ensures SameButMarks(fs, hs)
  {
  }

  lemma LoadKeepsForwards(c: Config)
    ensures SameButMarks(c.forwards, Normalized(c).forwards)
  {
    LinkFrame(Base(c), c.forwards);
  }

  lemma {:induction false} LoadsKeepForwards(c: Config, t: nat)
    ensures SameButMarks(c.forwards, Convergence.NormalizedTimes(c, t).forwards)
    decreases t
  {
    if t > 0 {
      LoadKeepsForwards(c);
      LoadsKeepForwards(Normalized(c), t - 1);
      SameThrough(c.forwards, Normalized(c).forwards, Convergence.NormalizedTimes(c, t).forwards);
    }
  }

  lemma AgentCheckOfStored(fs: seq<Forward>, rs: seq<AgentForward>, i: nat, splits: string -> bool)
    requires ForwardsPass(fs, |fs|) && |rs| == |fs| && i < |fs|
    requires forall k :: 0 <= k < |fs| ==> rs[k] == AgentForward(fs[k].name, fs[k].proto, fs[k].listen, fs[k].target)
    ensures AgentCheck(rs, i, splits) == if splits(fs[i].target) then None else Some(WrongTarget)
  {
    assert Fine(fs, i);
    TableHas(Keys(fs), Owners(fs), i);
    forall k | 0 <= k < i ensures PortKey(rs[k].proto, rs[k].listen) != PortKey(rs[i].proto, rs[i].listen) {
      assert Keys(fs)[k] in Taken(fs, i) && Keys(fs)[k] == KeyOf(fs[k]);
    }
  }

  /** A configuration that the portal accepted, after any number of loads (the row is normalized when it
      is read and again when it is sent), is accepted by the agent exactly when every target splits
      as host and port: the portal only looks for a colon. */
  lemma AcceptedByAgent(raw: Config, slug: string, isIP: string -> bool, splits: string -> bool, loads: nat)
    requires Accepted(raw, slug, isIP)
    ensures var stored := Stored(raw, slug);
            var sent := Convergence.NormalizedTimes(stored, loads);
            AgentAccepts(ReceivedAll(sent.forwards), splits) <==>
              (forall k :: 0 <= k < |stored.forwards| ==> splits(stored.forwards[k].target))
  {
    var fs := Stored(raw, slug).forwards;
    var sent := Convergence.NormalizedTimes(Stored(raw, slug), loads).forwards;
    LoadsKeepForwards(Stored(raw, slug), loads);
    SentAsStored(fs, sent);
    forall i | 0 <= i < |fs|
      ensures AgentCheck(ReceivedAll(sent), i, splits) == if splits(fs[i].target) then None else Some(WrongTarget)
    {
      AgentCheckOfStored(fs, ReceivedAll(sent), i, splits);
    }
  }

  lemma SentAsStored(fs: seq<Forward>, sent: seq<Forward>)
    requires ForwardsPass(fs, |fs|) && |sent| == |fs|
    requires forall k :: 0 <= k < |fs| ==> sent[k] == fs[k].(sub := sent[k].sub)
    ensures forall k :: 0 <= k < |fs| ==>
      ReceivedAll(sent)[k] == AgentForward(fs[k].name, fs[k].proto, fs[k].listen, fs[k].target)
  {
    forall k | 0 <= k < |fs| ensures Lower(fs[k].proto) == fs[k].proto {
      assert Fine(fs, k);
    }
  }

  const BARE6 := Config("six", 15, [SubDevice("led", "::1", 80, false, 0, [])],
                        [Forward("led", "tcp", 80, "::1:" + Decimal(80), "led")], Update(true, 1), None)

  const LED := SubDevice("led", "::1", 80, true, 80, [])

  lemma Bare6Prepared()
    ensures Prepared(BARE6, "six") == BARE6.(subDevices := [LED])
  {
    var f, subs := BARE6.forwards[0], Base(BARE6);
    assert subs == BARE6.subDevices;
    assert LastNamed(subs, "led") == 0;
    assert LinkOne(subs, f) == (Exposed(subs, 0, 80), f);
    Convergence.LinkCons(subs, f, []);
    assert [f] + [] == [f] == BARE6.forwards;
    assert Exposed(subs, 0, 80) == [LED];
  }

  lemma Bare6Built()
    ensures Rebuilt(BARE6, "six").forwards == BARE6.forwards
  {
    Bare6Prepared();
    Bare6Trimmed();
    Bare6Access();
    OneAccess(BARE6.(subDevices := [LED]), LED);
  }

  lemma Bare6Access()
    ensures [Access.AccessOf(LED, 0)] == BARE6.forwards
  {
    Slugs.CanonicalIsFixed("led");
    assert "::1" + ":" == "::1:";
  }

  lemma Bare6Trimmed()
    ensures TrimmedAll(Prepared(BARE6, "six").subDevices) == Prepared(BARE6, "six").subDevices
  {
    Bare6Prepared();
    assert TrimSpace("::1") == "::1";
    assert TrimmedAll([LED]) == [LED];
  }

  /** Rebuilding a single access. */
  lemma OneAccess(c: Config, sd: SubDevice)
    requires c.subDevices == [sd] && Access.Kept(sd) && sd.listen > 0
    requires |c.forwards| == 1 && c.forwards[0].sub != ""
    ensures Access.Built(c).forwards == [Access.AccessOf(sd, 0)]
  {
    NoneIsFree(c.forwards[0]);
    assert Access.Accesses(c.subDevices, 0) == [];
    assert c.forwards == [c.forwards[0]];
  }

  lemma NoneIsFree(f: Forward)
    requires f.sub != ""
    ensures Access.FreeOf([f]) == []
  {
    assert [f][..0] == [];
  }

  /** An exposed sub-device with a bare IPv6 address: the portal stores it, and the agent refuses the
      whole configuration since the rebuilt target has too many colons to split. */
  lemma BareIPv6IsRefused(isIP: string -> bool, splits: string -> bool, loads: nat)
    requires isIP("::1") && !splits("::1:" + Decimal(80))
    ensures Accepted(BARE6, "six", isIP)
    ensures !AgentAccepts(ReceivedAll(Convergence.NormalizedTimes(Stored(BARE6, "six"), loads).forwards), splits)
  {
    Bare6Stored();
    Bare6Passes(isIP);
    assert !splits(Stored(BARE6, "six").forwards[0].target);
    AcceptedByAgent(BARE6, "six", isIP, splits, loads);
  }

  lemma Bare6Stored()
    ensures Stored(BARE6, "six").forwards == BARE6.forwards
  {
    Bare6Built();
    TcpIsPlain();
    assert WithProto(BARE6.forwards[0]) == BARE6.forwards[0];
  }

  lemma Bare6Passes(isIP: string -> bool)
    requires isIP("::1")
    ensures Accepted(BARE6, "six", isIP)
  {
    Bare6Stored();
    Bare6Fine();
    Bare6Checked(isIP);
  }

  lemma Bare6Fine()
    ensures Fine(BARE6.forwards, 0)
  {
    assert BARE6.forwards[0].target[0] == ':';
  }

  lemma Bare6Checked(isIP: string -> bool)
    requires isIP("::1")
    ensures var subs := Prepared(BARE6, "six").subDevices; |subs| == 1 && CheckSub(subs, 0, isIP) == None
  {
    Bare6Prepared();
    assert TrimSpace("::1") == "::1";
  }
}
