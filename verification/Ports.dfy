/** Which addresses and ports the texts of a configuration stand for (hub/dashboard/models.go:112-149,
    hub/dashboard/portal.go:588-637, agent/internal/config/config.go:189-211): the targets of rebuilt accesses,
    the targets that claim a sub-device, and the port checks of the portal and of the agent, said of protocols,
    addresses and numbers. */
module Ports {
  import opened Common
  import opened Links
  import opened Saving
  import Access
  import Decimals
  import Slugs

  // ----- targets -----

  /** Targets are equal exactly when addresses and ports are. */
  lemma TargetIff(a: SubDevice, b: SubDevice)
    ensures Target(a) == Target(b) <==> a.ip == b.ip && a.port == b.port
  {
    Decimals.TaggedInjective(a.ip, ':', a.port, b.ip, b.port);
  }

  /** A forward to an address and port can be linked to a sub-device exactly when it has both and is free. */
  lemma ClaimsIff(sd: SubDevice, other: SubDevice)
    ensures Claims(sd, Target(other)) <==>
            !sd.expose && sd.ip != "" && sd.ip == other.ip && sd.port == other.port
  {
    TargetIff(sd, other);
  }

  /** The sub-devices, among the first `n`, that are exposed and can be reached. */
  function Reachable(subs: seq<SubDevice>, n: nat): seq<SubDevice>
    requires n <= |subs|
  {
    if n == 0 then []
    else
      var sd := subs[n - 1];
      Reachable(subs, n - 1) + (if sd.expose && sd.ip != "" && sd.port > 0 then [sd] else [])
  }

  /** The text is the address, a colon and the digits of the port. */
  ghost predicate Addresses(target: string, ip: string, port: nat) {
    && |target| > |ip| && target[..|ip|] == ip && target[|ip|] == ':'
    && var digits := target[|ip| + 1..];
       Decimals.AllDigits(digits) && Decimals.Read(digits) == port && digits != [] && (port > 0 ==> digits[0] != '0')
  }

  /** The access is called after its sub-device, or by a number when nothing of that name is left in a slug. */
  ghost predicate CalledAfter(name: string, given: string) {
    if Slugs.Slug(given) != "" then name == Slugs.Slug(given)
    else exists digits :: name == "acces-" + digits && digits != [] && Decimals.AllDigits(digits)
  }

  /** The forward gives access to the sub-device, on its port unless another is asked for. */
  ghost predicate Opens(f: Forward, sd: SubDevice) {
    && f.proto == "tcp" && f.sub == sd.name && CalledAfter(f.name, sd.name)
    && f.listen == (if sd.listen > 0 then sd.listen else sd.port)
    && sd.port >= 0 && Addresses(f.target, sd.ip, sd.port)
  }

  lemma TargetAddresses(sd: SubDevice)
    requires sd.port > 0
    ensures Addresses(Target(sd), sd.ip, sd.port)
  {
    Decimals.DigitsRead(sd.port);
    assert Target(sd)[|sd.ip| + 1..] == Digits(sd.port);
    assert Target(sd)[..|sd.ip|] == sd.ip;
  }

  lemma AccessOpens(sd: SubDevice, i: nat)
    requires sd.expose && sd.ip != "" && sd.port > 0
    ensures Opens(Access.AccessOf(Access.BuiltSub(sd), i), sd)
  {
    TargetAddresses(sd);
    Decimals.DigitsRead(i + 1);
  }

  /** Each forward gives access to the sub-device at its place. */
  ghost predicate AllOpen(fs: seq<Forward>, subs: seq<SubDevice>) {
    |fs| == |subs| && forall k :: 0 <= k < |subs| ==> Opens(fs[k], subs[k])
  }

  lemma OneMoreOpens(fs: seq<Forward>, subs: seq<SubDevice>, f: Forward, sd: SubDevice)
    requires AllOpen(fs, subs) && Opens(f, sd)
    ensures AllOpen(fs + [f], subs + [sd])
  {
  }

  /** The rebuilt accesses: one for each sub-device that can be reached, in order, to its address and port. */
  lemma {:induction false} AccessesOpen(subs: seq<SubDevice>, n: nat)
    requires n <= |subs|
    ensures AllOpen(Access.Accesses(subs, n), Reachable(subs, n))
    decreases n
  {
    hide Opens, Access.AccessOf, Access.BuiltSub;
    if n > 0 {
      var sd, fs, rs := subs[n - 1], Access.Accesses(subs, n - 1), Reachable(subs, n - 1);
      AccessesOpen(subs, n - 1);
      if Access.Kept(sd) {
        AccessOpens(sd, n - 1);
        OneMoreOpens(fs, rs, Access.AccessOf(Access.BuiltSub(sd), n - 1), sd);
      } else {
        NothingMore(rs);
      }
    }
  }

  // ----- port keys -----

  lemma PortKeyIff(proto: string, listen: int, proto': string, listen': int)
    ensures PortKey(proto, listen) == PortKey(proto', listen') <==> proto == proto' && listen == listen'
  {
    Decimals.TaggedInjective(proto, '/', listen, proto', listen');
  }

  predicate TcpOrUdp(proto: string) {
    proto == "tcp" || proto == "udp"
  }

  /** No earlier forward listens on the same port of the same protocol. */
  predicate Alone(fs: seq<Forward>, i: nat)
    requires i < |fs|
  {
    forall k :: 0 <= k < i ==> fs[k].proto != fs[i].proto || fs[k].listen != fs[i].listen
  }

  lemma TakenIff(fs: seq<Forward>, i: nat)
    requires i < |fs|
    ensures KeyOf(fs[i]) !in Taken(fs, i) <==> Alone(fs, i)
  {
    TableHas(Keys(fs), Owners(fs), i);
    forall k | 0 <= k < i
      ensures KeyOf(fs[k]) == KeyOf(fs[i]) <==> fs[k].proto == fs[i].proto && fs[k].listen == fs[i].listen
      ensures Keys(fs)[k] == KeyOf(fs[k]) && Keys(fs)[k] in Taken(fs, i)
    {
      PortKeyIff(fs[k].proto, fs[k].listen, fs[i].proto, fs[i].listen);
    }
  }

  /** What the portal asks of a forward, said of its protocol and ports. */
  predicate Stands(fs: seq<Forward>, i: nat)
    requires i < |fs|
  {
    && TcpOrUdp(fs[i].proto) && 1 <= fs[i].listen <= 65535 && ':' in fs[i].target && fs[i].name != ""
    && Alone(fs, i)
  }

  lemma FineIff(fs: seq<Forward>, i: nat)
    requires i < |fs|
    ensures Fine(fs, i) <==> Stands(fs, i)
  {
    TakenIff(fs, i);
  }

  /** Which check is reported: the protocol first, then what is missing, then the port. */
  lemma WhyRefused(fs: seq<Forward>, i: nat)
    requires i < |fs|
    ensures var f, why := fs[i], CheckForward(fs, i);
            && (why == Some(BadProto) <==> !TcpOrUdp(f.proto))
            && (why == Some(Incomplete) <==>
                  TcpOrUdp(f.proto) && !(1 <= f.listen <= 65535 && ':' in f.target && f.name != ""))
            && (why.Some? && why.value.PortTaken? <==>
                  TcpOrUdp(f.proto) && 1 <= f.listen <= 65535 && ':' in f.target && f.name != "" && !Alone(fs, i))
  {
    TakenIff(fs, i);
  }

  /** The forwards pass the checks of the portal exactly when each has a name, a protocol, a port and a colon in
      its target, and no two share protocol and port. */
  lemma ForwardsPassIff(fs: seq<Forward>)
    ensures ForwardsPass(fs, |fs|) <==> forall i :: 0 <= i < |fs| ==> Stands(fs, i)
  {
    forall i | 0 <= i < |fs| ensures Fine(fs, i) <==> Stands(fs, i) {
      FineIff(fs, i);
    }
  }

  /** A refused port names a forward that has it already. */
  lemma PortTakenBy(fs: seq<Forward>, i: nat, port: int, other: string, who: string)
    requires i < |fs| && CheckForward(fs, i) == Some(PortTaken(port, other, who))
    ensures port == fs[i].listen && who == Who(fs[i])
    ensures exists k :: 0 <= k < i && fs[k].proto == fs[i].proto && fs[k].listen == port && other == Who(fs[k])
  {
    TableHas(Keys(fs), Owners(fs), i);
    var key := KeyOf(fs[i]);
    var k :| 0 <= k < i && Keys(fs)[k] == key && Taken(fs, i)[key] == Owners(fs)[k];
    PortKeyIff(fs[k].proto, fs[k].listen, fs[i].proto, fs[i].listen);
  }

  /** What the portal asks of a sub-device. */
  predicate SubStands(subs: seq<SubDevice>, i: nat, isIP: string -> bool)
    requires i < |subs|
  {
    var sd := subs[i];
    && isIP(TrimSpace(sd.ip)) && 1 <= sd.port <= 65535
    && (sd.expose ==> sd.listen == 0 || 1 <= sd.listen <= 65535)
    && forall k :: 0 <= k < i ==> subs[k].name != sd.name
  }

  lemma SubFineIff(subs: seq<SubDevice>, i: nat, isIP: string -> bool)
    requires i < |subs|
    ensures CheckSub(subs, i, isIP) == None <==> SubStands(subs, i, isIP)
  {
  }

  /** Which check is reported: the address first, then the two ports, then the name. */
  lemma WhySubRefused(subs: seq<SubDevice>, i: nat, isIP: string -> bool)
    requires i < |subs|
    ensures var sd, why := subs[i], CheckSub(subs, i, isIP);
            var address, port := isIP(TrimSpace(sd.ip)), 1 <= sd.port <= 65535;
            var listen := !sd.expose || sd.listen == 0 || 1 <= sd.listen <= 65535;
            && (why == Some(BadIP) <==> !address)
            && (why == Some(BadPort) <==> address && !port)
            && (why == Some(BadListen) <==> address && port && !listen)
            && (why == Some(NameTaken) <==>
                  address && port && listen && exists k :: 0 <= k < i && subs[k].name == sd.name)
  {
  }

  /** The portal accepts a configuration exactly when every sub-device, as normalized, and every forward, as
      rebuilt and put in order, stands. */
  lemma AcceptedIff(raw: Config, slug: string, isIP: string -> bool)
    ensures var subs, fs := Normalized(raw).subDevices, Stored(raw, slug).forwards;
            Accepted(raw, slug, isIP) <==>
              (forall i :: 0 <= i < |subs| ==> SubStands(subs, i, isIP)) &&
              (forall i :: 0 <= i < |fs| ==> Stands(fs, i))
  {
    var subs := Normalized(raw).subDevices;
    forall i | 0 <= i < |subs| ensures CheckSub(subs, i, isIP) == None <==> SubStands(subs, i, isIP) {
      SubFineIff(subs, i, isIP);
    }
    ForwardsPassIff(Stored(raw, slug).forwards);
  }

  // ----- the agent -----

  /** What the agent asks of a rule. */
  predicate RuleStands(rs: seq<AgentForward>, i: nat, splits: string -> bool)
    requires i < |rs|
  {
    && rs[i].name != "" && TcpOrUdp(rs[i].proto) && 1 <= rs[i].listen <= 65535 && splits(rs[i].target)
    && forall k :: 0 <= k < i ==> rs[k].proto != rs[i].proto || rs[k].listen != rs[i].listen
  }

  lemma RuleFineIff(rs: seq<AgentForward>, i: nat, splits: string -> bool)
    requires i < |rs|
    ensures AgentCheck(rs, i, splits) == None <==> RuleStands(rs, i, splits)
  {
    forall k | 0 <= k < i
      ensures PortKey(rs[k].proto, rs[k].listen) == PortKey(rs[i].proto, rs[i].listen) <==>
              rs[k].proto == rs[i].proto && rs[k].listen == rs[i].listen
    {
      PortKeyIff(rs[k].proto, rs[k].listen, rs[i].proto, rs[i].listen);
    }
  }

  /** The agent accepts a list of rules exactly when each has a name, a protocol, a port and a target that
      splits, and no two share protocol and port. */
  lemma AgentAcceptsIff(rs: seq<AgentForward>, splits: string -> bool)
    ensures AgentAccepts(rs, splits) <==> forall i :: 0 <= i < |rs| ==> RuleStands(rs, i, splits)
  {
    forall i | 0 <= i < |rs| ensures AgentCheck(rs, i, splits) == None <==> RuleStands(rs, i, splits) {
      RuleFineIff(rs, i, splits);
    }
  }
}
