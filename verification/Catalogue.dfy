/** The catalogue of variables of a project (hub/dashboard/variables.go:83-265). Numbers and durations
    arrive here already formatted. */
module Catalogue {
  import opened Common
  import Links
  import opened Slugs
  import Templates

  datatype ReadingResult = ReadingResult(name: string, value: string, unit: string, error: string)

  datatype SubState = SubState(name: string, target: string, reachable: bool, rtt: string, error: string,
                               readings: seq<ReadingResult>)

  datatype Peer = Peer(online: bool, direct: bool)

  datatype Heartbeat = Heartbeat(subs: seq<SubState>, peers: seq<Peer>, hostname: string, os: string,
                                 lanIP: string, lanCIDR: string, cpu: string, ram: string, uptime: string,
                                 rustdesk: string)

  datatype Device = Device(slug: string, name: string, status: string, hostname: string, os: string,
                           arch: string, agentVersion: string, tailnetIP: string, online: bool,
                           age: string, lastSeen: string, heartbeatSeconds: string,
                           subDevices: seq<Links.SubDevice>, hb: Heartbeat)

  datatype Project = Project(name: string, slug: string, timezone: string)

  datatype Entry = Entry(key: string, value: string)

  function YesNo(b: bool): string {
    if b then "oui" else "non"
  }

  function FirstNonEmpty(a: string, b: string): string {
    if a != "" then a else b
  }

  /** The position of the last colon, -1 when there is none. */
  function LastColon(t: string): (i: int)
    ensures -1 <= i < |t|
  {
    if t == "" then -1 else if t[|t| - 1] == ':' then |t| - 1 else LastColon(t[..|t| - 1])
  }

  function SplitTarget(t: string): (string, string) {
    var i := LastColon(t);
    if i < 0 then (t, "") else (t[..i], t[i + 1..])
  }

  /** The entry stands under the prefix `k`. */
  predicate Under(k: string, e: Entry) {
    k + "." <= e.key
  }

  datatype Field = Field(name: string, value: string)

  /** The entries of fields under a common base. */
  function Keyed(base: string, fields: seq<Field>): seq<Entry> {
    seq(|fields|, i requires 0 <= i < |fields| => Entry(base + "." + fields[i].name, fields[i].value))
  }

  // ----- the entries of one device -----

  /** Whether some peer is reached through a relay. */
  function Relayed(peers: seq<Peer>, n: nat): bool
    requires n <= |peers|
  {
    n > 0 && (Relayed(peers, n - 1) || (peers[n - 1].online && !peers[n - 1].direct))
  }

  function CountReachable(subs: seq<SubState>, n: nat): nat
    requires n <= |subs|
  {
    if n == 0 then 0 else CountReachable(subs, n - 1) + (if subs[n - 1].reachable then 1 else 0)
  }

  /** The access address given by the first `n` configured sub-devices: the last exposed namesake. */
  function AccessAddress(d: Device, name: string, n: nat): string
    requires n <= |d.subDevices|
  {
    if n == 0 then ""
    else
      var c := d.subDevices[n - 1];
      if c.name == name && c.expose && d.tailnetIP != "" then
        d.tailnetIP + ":" + Decimal(if c.listen == 0 then c.port else c.listen)
      else AccessAddress(d, name, n - 1)
  }

  function SubBase(k: string, sk: string): string {
    k + ".subs." + sk
  }

  function ReadingEntries(k: string, sk: string, r: ReadingResult): seq<Entry> {
    var rk := VarKey(r.name);
    if rk == "" then []
    else
      Keyed(SubBase(k, sk) + ".readings",
            [Field(rk, r.value), Field(rk + ".unit", r.unit), Field(rk + ".error", r.error)])
  }

  /** The entries of the first `n` readings. */
  function ReadingsEntries(k: string, sk: string, rs: seq<ReadingResult>, n: nat): seq<Entry>
    requires n <= |rs|
  {
    if n == 0 then [] else ReadingsEntries(k, sk, rs, n - 1) + ReadingEntries(k, sk, rs[n - 1])
  }

  function SubFields(sd: SubState, access: string): seq<Field> {
    [Field("name", sd.name), Field("target", sd.target), Field("reachable", YesNo(sd.reachable)),
     Field("error", sd.error), Field("rtt", if sd.reachable then sd.rtt else ""),
     Field("ip", SplitTarget(sd.target).0), Field("port", SplitTarget(sd.target).1), Field("access", access)]
  }

  function SubEntries(d: Device, k: string, sd: SubState): seq<Entry> {
    var sk := VarKey(sd.name);
    if sk == "" then []
    else
      Keyed(SubBase(k, sk), SubFields(sd, AccessAddress(d, sd.name, |d.subDevices|)))
        + ReadingsEntries(k, sk, sd.readings, |sd.readings|)
  }

  /** The entries of the first `n` of the sub-devices in a heartbeat. */
  function SubsEntries(d: Device, k: string, subs: seq<SubState>, n: nat): seq<Entry>
    requires n <= |subs|
  {
    if n == 0 then [] else SubsEntries(d, k, subs, n - 1) + SubEntries(d, k, subs[n - 1])
  }

  function DeviceFields(d: Device, relayed: bool, ok: nat, ko: nat): seq<Field> {
    [Field("name", d.name), Field("slug", d.slug), Field("online", YesNo(d.online)),
     Field("status", d.status), Field("ip", d.tailnetIP), Field("lan_ip", d.hb.lanIP),
     Field("lan_cidr", d.hb.lanCIDR), Field("hostname", FirstNonEmpty(d.hb.hostname, d.hostname)),
     Field("os", FirstNonEmpty(d.hb.os, d.os)), Field("arch", d.arch), Field("agent", d.agentVersion),
     Field("heartbeat", d.heartbeatSeconds), Field("age", d.age), Field("last_seen", d.lastSeen),
     Field("rustdesk", d.hb.rustdesk),
     Field("cpu", if d.online then d.hb.cpu else ""), Field("ram", if d.online then d.hb.ram else ""),
     Field("uptime", if d.online then d.hb.uptime else ""),
     Field("relayed", YesNo(relayed)), Field("subs_total", Decimal(|d.hb.subs|)),
     Field("subs_ok", Decimal(ok)), Field("subs_ko", Decimal(ko))]
  }

  function SubsDown(d: Device): nat {
    CountAtMost(d.hb.subs, |d.hb.subs|);
    |d.hb.subs| - CountReachable(d.hb.subs, |d.hb.subs|)
  }

  lemma {:induction false} CountAtMost(subs: seq<SubState>, n: nat)
    requires n <= |subs|
    ensures CountReachable(subs, n) <= n
  {
    if n > 0 {
      CountAtMost(subs, n - 1);
    }
  }

  function DeviceEntries(d: Device): seq<Entry> {
    var k := VarKey(d.slug);
    if k == "" then []
    else
      Keyed(k, DeviceFields(d, Relayed(d.hb.peers, |d.hb.peers|), CountReachable(d.hb.subs, |d.hb.subs|), SubsDown(d)))
        + SubsEntries(d, k, d.hb.subs, |d.hb.subs|)
  }

  // ----- the whole catalogue -----

  /** Only approved devices are listed. */
  function Listed(d: Device): seq<Entry> {
    if d.status == "approved" then DeviceEntries(d) else []
  }

  function Blocks(ds: seq<Device>): seq<seq<Entry>> {
    seq(|ds|, i requires 0 <= i < |ds| => Listed(ds[i]))
  }

  /** The unreachable sub-devices that a device adds to the project total. */
  function DeviceDown(d: Device): nat {
    if d.status != "approved" || VarKey(d.slug) == "" then 0 else SubsDown(d)
  }

  function Downs(ds: seq<Device>): seq<nat> {
    seq(|ds|, i requires 0 <= i < |ds| => DeviceDown(ds[i]))
  }

  function Sum(ns: seq<nat>, n: nat): nat
    requires n <= |ns|
  {
    if n == 0 then 0 else Sum(ns, n - 1) + ns[n - 1]
  }

  datatype Counts = Counts(online: nat, offline: nat, pending: nat)

  function CountsOf(ds: seq<Device>, n: nat): Counts
    requires n <= |ds|
  {
    if n == 0 then Counts(0, 0, 0)
    else
      var c, d := CountsOf(ds, n - 1), ds[n - 1];
      if d.status == "approved" && d.online then c.(online := c.online + 1)
      else if d.status == "approved" then c.(offline := c.offline + 1)
      else if d.status == "pending" then c.(pending := c.pending + 1)
      else c
  }

  function ProjectFields(p: Project, c: Counts, subsKO: nat): seq<Field> {
    [Field("name", p.name), Field("slug", p.slug), Field("timezone", p.timezone),
     Field("devices_total", Decimal(c.online + c.offline)), Field("devices_online", Decimal(c.online)),
     Field("devices_offline", Decimal(c.offline)), Field("pending", Decimal(c.pending)),
     Field("subs_ko", Decimal(subsKO))]
  }

  function OwnEntries(p: Project, ds: seq<Device>): seq<Entry> {
    Keyed("project", ProjectFields(p, CountsOf(ds, |ds|), Sum(Downs(ds), |ds|)))
  }

  function Entries(p: Project, ds: seq<Device>): seq<Entry> {
    Flat(Blocks(ds), |ds|) + OwnEntries(p, ds)
  }

  function MapOf(es: seq<Entry>): map<string, string> {
    if es == [] then map[] else MapOf(es[..|es| - 1])[es[|es| - 1].key := es[|es| - 1].value]
  }

  // ----- the loops -----

  method AddReading(k: string, sk: string, r: ReadingResult) returns (out: seq<Entry>)
    ensures out == ReadingEntries(k, sk, r)
  {
    var rk := VarKey(r.name);
    if rk == "" {
      return [];
    }
    return Keyed(SubBase(k, sk) + ".readings",
                 [Field(rk, r.value), Field(rk + ".unit", r.unit), Field(rk + ".error", r.error)]);
  }

  method AddReadings(k: string, sk: string, rs: seq<ReadingResult>) returns (out: seq<Entry>)
    ensures out == ReadingsEntries(k, sk, rs, |rs|)
  {
    hide ReadingEntries;
    out := [];
    for i := 0 to |rs|
      invariant out == ReadingsEntries(k, sk, rs, i)
    {
      var entries := AddReading(k, sk, rs[i]);
      out := out + entries;
    }
  }

  method FindAccess(d: Device, name: string) returns (access: string)
    ensures access == AccessAddress(d, name, |d.subDevices|)
  {
    access := "";
    for i := 0 to |d.subDevices|
      invariant access == AccessAddress(d, name, i)
    {
      var c := d.subDevices[i];
      if c.name == name && c.expose && d.tailnetIP != "" {
        var l := c.listen;
        if l == 0 {
          l := c.port;
        }
        access := d.tailnetIP + ":" + Decimal(l);
      }
    }
  }

  method IsRelayed(peers: seq<Peer>) returns (relayed: bool)
    ensures relayed == Relayed(peers, |peers|)
  {
    relayed := false;
    for i := 0 to |peers|
      invariant relayed == Relayed(peers, i)
    {
      if peers[i].online && !peers[i].direct {
        relayed := true;
      }
    }
  }

  method CountSubs(d: Device) returns (ok: nat, ko: nat)
    ensures ok == CountReachable(d.hb.subs, |d.hb.subs|) && ko == SubsDown(d)
  {
    ok, ko := 0, 0;
    for i := 0 to |d.hb.subs|
      invariant ok == CountReachable(d.hb.subs, i) && ko == i - ok
    {
      if d.hb.subs[i].reachable {
        ok := ok + 1;
      } else {
        ko := ko + 1;
      }
    }
  }

  method AddSub(d: Device, k: string, sd: SubState) returns (out: seq<Entry>)
    ensures out == SubEntries(d, k, sd)
  {
    var sk := VarKey(sd.name);
    if sk == "" {
      return [];
    }
    var access := FindAccess(d, sd.name);
    var readings := AddReadings(k, sk, sd.readings);
    out := Keyed(SubBase(k, sk), SubFields(sd, access)) + readings;
  }

  method AddSubs(d: Device, k: string, subs: seq<SubState>) returns (out: seq<Entry>)
    ensures out == SubsEntries(d, k, subs, |subs|)
  {
    hide SubEntries;
    out := [];
    for i := 0 to |subs|
      invariant out == SubsEntries(d, k, subs, i)
    {
      var entries := AddSub(d, k, subs[i]);
      out := out + entries;
    }
  }

  method AddDevice(d: Device) returns (out: seq<Entry>, ko: nat)
    requires d.status == "approved"
    ensures out == DeviceEntries(d) && ko == DeviceDown(d)
  {
    var k := VarKey(d.slug);
    if k == "" {
      return [], 0;
    }
    var relayed := IsRelayed(d.hb.peers);
    var ok;
    ok, ko := CountSubs(d);
    var subs := AddSubs(d, k, d.hb.subs);
    out := Keyed(k, DeviceFields(d, relayed, ok, ko)) + subs;
  }

  method CountDevices(ds: seq<Device>) returns (c: Counts)
    ensures c == CountsOf(ds, |ds|)
  {
    var online, offline, pending := 0, 0, 0;
    for i := 0 to |ds|
      invariant Counts(online, offline, pending) == CountsOf(ds, i)
    {
      if ds[i].status == "approved" {
        if ds[i].online {
          online := online + 1;
        } else {
          offline := offline + 1;
        }
      } else if ds[i].status == "pending" {
        pending := pending + 1;
      }
    }
    c := Counts(online, offline, pending);
  }

  method VisitDevice(d: Device) returns (out: seq<Entry>, ko: nat)
    ensures out == Listed(d) && ko == DeviceDown(d)
  {
    if d.status == "approved" {
      out, ko := AddDevice(d);
    } else {
      out, ko := [], 0;
    }
  }

  method AddDevices(ds: seq<Device>) returns (out: seq<Entry>, subsKO: nat)
    ensures out == Flat(Blocks(ds), |ds|) && subsKO == Sum(Downs(ds), |ds|)
  {
    hide Listed, DeviceDown;
    out, subsKO := [], 0;
    for i := 0 to |ds|
      invariant out == Flat(Blocks(ds), i) && subsKO == Sum(Downs(ds), i)
    {
      var entries, ko := VisitDevice(ds[i]);
      out, subsKO := out + entries, subsKO + ko;
    }
  }

  method BuildVariables(p: Project, ds: seq<Device>) returns (out: seq<Entry>)
    ensures out == Entries(p, ds)
  {
    var c := CountDevices(ds);
    var subsKO;
    out, subsKO := AddDevices(ds);
    out := out + Keyed("project", ProjectFields(p, c, subsKO));
  }

  method VarsMap(es: seq<Entry>) returns (m: map<string, string>)
    ensures m == MapOf(es)
  {
    m := map[];
    for i := 0 to |es|
      invariant m == MapOf(es[..i])
    {
      assert es[..i + 1][..i] == es[..i];
      m := m[es[i].key := es[i].value];
    }
    assert es[..|es|] == es;
  }

  // ----- every key stands under the prefix of its owner -----

  predicate AllUnder(k: string, es: seq<Entry>) {
    forall e :: e in es ==> Under(k, e)
  }

  /** What stands under `k` stays so when entries under `k` follow. */
  lemma UnderAppend(k: string, a: seq<Entry>, b: seq<Entry>)
    requires AllUnder(k, a) && AllUnder(k, b)
    ensures AllUnder(k, a + b)
  {
  }

  lemma KeyedUnder(k: string, base: string, fields: seq<Field>)
    requires base == k || k + "." <= base
    ensures AllUnder(k, Keyed(base, fields))
  {
    forall i | 0 <= i < |fields| ensures k + "." <= base + "." + fields[i].name {
      if base == k {
        assert (base + "." + fields[i].name)[..|k| + 1] == k + ".";
      } else {
        assert (base + "." + fields[i].name)[..|k| + 1] == base[..|k| + 1];
      }
    }
  }

  lemma SubBaseUnder(k: string, sk: string, more: string)
    ensures k + "." <= SubBase(k, sk) + more
  {
    assert (SubBase(k, sk) + more)[..|k| + 1] == k + ".";
  }

  lemma ReadingUnder(k: string, sk: string, r: ReadingResult)
    ensures AllUnder(k, ReadingEntries(k, sk, r))
  {
    var rk, base := VarKey(r.name), SubBase(k, sk) + ".readings";
    SubBaseUnder(k, sk, ".readings");
    KeyedUnder(k, base, [Field(rk, r.value), Field(rk + ".unit", r.unit), Field(rk + ".error", r.error)]);
  }

  lemma {:induction false} ReadingsUnder(k: string, sk: string, rs: seq<ReadingResult>, n: nat)
    requires n <= |rs|
    ensures AllUnder(k, ReadingsEntries(k, sk, rs, n))
    decreases n
  {
    hide ReadingEntries;
    if n > 0 {
      ReadingsUnder(k, sk, rs, n - 1);
      ReadingUnder(k, sk, rs[n - 1]);
      UnderAppend(k, ReadingsEntries(k, sk, rs, n - 1), ReadingEntries(k, sk, rs[n - 1]));
    }
  }

  lemma SubUnder(d: Device, k: string, sd: SubState)
    ensures AllUnder(k, SubEntries(d, k, sd))
  {
    var sk := VarKey(sd.name);
    SubBaseUnder(k, sk, "");
    NothingMore(SubBase(k, sk));
    KeyedUnder(k, SubBase(k, sk), SubFields(sd, AccessAddress(d, sd.name, |d.subDevices|)));
    ReadingsUnder(k, sk, sd.readings, |sd.readings|);
  }

  lemma {:induction false} SubsUnder(d: Device, k: string, subs: seq<SubState>, n: nat)
    requires n <= |subs|
    ensures AllUnder(k, SubsEntries(d, k, subs, n))
    decreases n
  {
    hide SubEntries;
    if n > 0 {
      SubsUnder(d, k, subs, n - 1);
      SubUnder(d, k, subs[n - 1]);
      UnderAppend(k, SubsEntries(d, k, subs, n - 1), SubEntries(d, k, subs[n - 1]));
    }
  }

  lemma DeviceEntriesUnder(d: Device)
    ensures AllUnder(VarKey(d.slug), DeviceEntries(d))
  {
    var k := VarKey(d.slug);
    var relayed, ok := Relayed(d.hb.peers, |d.hb.peers|), CountReachable(d.hb.subs, |d.hb.subs|);
    KeyedUnder(k, k, DeviceFields(d, relayed, ok, SubsDown(d)));
    SubsUnder(d, k, d.hb.subs, |d.hb.subs|);
  }

  lemma ProjectEntriesUnder(p: Project, ds: seq<Device>)
    ensures AllUnder("project", OwnEntries(p, ds))
  {
    KeyedUnder("project", "project", ProjectFields(p, CountsOf(ds, |ds|), Sum(Downs(ds), |ds|)));
  }

  /** A key has one owner: keys of owners contain no dot. */
  lemma OneOwner(k: string, k': string, e: Entry)
    requires IsKeyPart(k) && IsKeyPart(k') && Under(k, e) && Under(k', e)
    ensures k == k'
  {
    assert e.key[|k|] == '.' && e.key[|k'|] == '.';
    assert k == e.key[..|k|] && k' == e.key[..|k'|];
  }

  /** The entries under the prefix `k`, in the order of the catalogue. */
  function Owned(k: string, es: seq<Entry>): seq<Entry> {
    if es == [] then []
    else
      var last := es[|es| - 1];
      Owned(k, es[..|es| - 1]) + (if Under(k, last) then [last] else [])
  }

  lemma {:induction false} OwnedAppend(k: string, a: seq<Entry>, b: seq<Entry>)
    ensures Owned(k, a + b) == Owned(k, a) + Owned(k, b)
  {
    if b == [] {
      assert a + b == a;
    } else {
      var m := |b| - 1;
      assert (a + b)[..|a| + m] == a + b[..m];
      OwnedAppend(k, a, b[..m]);
    }
  }

  lemma {:induction false} OwnedBy(k: string, k': string, es: seq<Entry>)
    requires IsKeyPart(k) && IsKeyPart(k') && AllUnder(k', es)
    ensures Owned(k, es) == if k == k' then es else []
  {
    if es != [] {
      var init, last := es[..|es| - 1], es[|es| - 1];
      OwnedBy(k, k', init);
      if k == k' {
        assert es == init + [last];
      } else if Under(k, last) {
        OneOwner(k, k', last);
      }
    }
  }

  /** The devices of a project have distinct canonical slugs. */
  predicate StoredSlugs(ds: seq<Device>) {
    && (forall i :: 0 <= i < |ds| ==> Canonical(ds[i].slug) && ds[i].slug != "")
    && (forall i, j :: 0 <= i < j < |ds| ==> ds[i].slug != ds[j].slug)
  }

  ghost predicate Part(k: string, block: seq<Entry>, part: seq<Entry>) {
    Owned(k, block) == part
  }

  lemma PartAppend(k: string, before: seq<Entry>, part: seq<Entry>, block: seq<Entry>, next: seq<Entry>)
    requires Part(k, before, part) && Part(k, block, next)
    ensures Part(k, before + block, part + next)
  {
    OwnedAppend(k, before, block);
  }

  /** What `k` owns of blocks one after the other. */
  lemma {:induction false} PartsOfBlocks(k: string, blocks: seq<seq<Entry>>, parts: seq<seq<Entry>>, n: nat)
    requires n <= |blocks| == |parts| && forall j :: 0 <= j < n ==> Part(k, blocks[j], parts[j])
    ensures Part(k, Flat(blocks, n), Flat(parts, n))
  {
    if n > 0 {
      PartsOfBlocks(k, blocks, parts, n - 1);
      PartAppend(k, Flat(blocks, n - 1), Flat(parts, n - 1), blocks[n - 1], parts[n - 1]);
    }
  }

  /** Of blocks that are all empty but one, that one is left. */
  lemma {:induction false} FlatOfOne<T>(blocks: seq<seq<T>>, i: nat, n: nat)
    requires i < |blocks| && n <= |blocks|
    requires forall j :: 0 <= j < |blocks| && j != i ==> blocks[j] == []
    ensures Flat(blocks, n) == if i < n then blocks[i] else []
  {
    if n > 0 {
      FlatOfOne(blocks, i, n - 1);
    }
  }

  lemma DeviceBlock(ds: seq<Device>, i: nat, j: nat)
    requires StoredSlugs(ds) && i < |ds| && j < |ds|
    ensures Part(VarKey(ds[i].slug), Listed(ds[j]), if j == i then Listed(ds[i]) else [])
  {
    VarKeyIsKeyPart(ds[i].slug);
    VarKeyIsKeyPart(ds[j].slug);
    DeviceEntriesUnder(ds[j]);
    OwnedBy(VarKey(ds[i].slug), VarKey(ds[j].slug), Listed(ds[j]));
    if VarKey(ds[i].slug) == VarKey(ds[j].slug) {
      VarKeyInjective(ds[i].slug, ds[j].slug);
    }
  }

  lemma DeviceParts(ds: seq<Device>, i: nat)
    requires StoredSlugs(ds) && i < |ds|
    ensures Part(VarKey(ds[i].slug), Flat(Blocks(ds), |ds|), Listed(ds[i]))
  {
    var k := VarKey(ds[i].slug);
    var parts: seq<seq<Entry>> := seq(|ds|, j => if j == i then Listed(ds[i]) else []);
    forall j | 0 <= j < |ds| ensures Part(k, Blocks(ds)[j], parts[j]) {
      DeviceBlock(ds, i, j);
    }
    PartsOfBlocks(k, Blocks(ds), parts, |ds|);
    FlatOfOne(parts, i, |ds|);
  }

  lemma ProjectKey()
    ensures Canonical("project") && VarKey("project") == "project" && IsKeyPart("project")
  {
    VarKeyOfSlug("project");
  }

  lemma ProjectPart(p: Project, ds: seq<Device>, d: Device)
    requires Canonical(d.slug) && d.slug != "project" && d.slug != ""
    ensures Part(VarKey(d.slug), OwnEntries(p, ds), [])
  {
    ProjectKey();
    ProjectEntriesUnder(p, ds);
    VarKeyIsKeyPart(d.slug);
    if VarKey(d.slug) == VarKey("project") {
      VarKeyInjective(d.slug, "project");
    }
    OwnedBy(VarKey(d.slug), "project", OwnEntries(p, ds));
  }

  /** Isolation: under the prefix of a device stand exactly its own entries, in order, so its part of the
      catalogue depends on nothing but that device. */
  lemma DevicesAreIsolated(p: Project, ds: seq<Device>, i: nat)
    requires StoredSlugs(ds) && i < |ds| && ds[i].slug != "project"
    ensures Owned(VarKey(ds[i].slug), Entries(p, ds)) == Listed(ds[i])
  {
    DeviceParts(ds, i);
    ProjectPart(p, ds, ds[i]);
    PartAppend(VarKey(ds[i].slug), Flat(Blocks(ds), |ds|), Listed(ds[i]), OwnEntries(p, ds), []);
    NothingMore(Listed(ds[i]));
  }

  lemma MapOfLast(es: seq<Entry>, e: Entry)
    ensures MapOf(es + [e]) == MapOf(es)[e.key := e.value]
  {
    assert (es + [e])[..|es|] == es;
  }

  /** A lookup sees only the entries under the prefix of its key. */
  lemma {:induction false} LookupIsOwned(k: string, key: string, es: seq<Entry>)
    requires k + "." <= key
    ensures key in MapOf(es) <==> key in MapOf(Owned(k, es))
    ensures key in MapOf(es) ==> MapOf(es)[key] == MapOf(Owned(k, es))[key]
  {
    if es != [] {
      var init, last := es[..|es| - 1], es[|es| - 1];
      LookupIsOwned(k, key, init);
      assert es == init + [last];
      MapOfLast(init, last);
      if Under(k, last) {
        MapOfLast(Owned(k, init), last);
      } else {
        assert Owned(k, init) + [] == Owned(k, init);
        assert last.key != key;
      }
    }
  }

  /** What a template reads under the prefix of a device does not depend on the rest of the project. */
  lemma LookupDependsOnDevice(p: Project, ds: seq<Device>, p': Project, ds': seq<Device>, i: nat, i': nat, key: string)
    requires StoredSlugs(ds) && StoredSlugs(ds') && i < |ds| && i' < |ds'| && ds[i] == ds'[i']
    requires ds[i].slug != "project" && VarKey(ds[i].slug) + "." <= key
    ensures var m, m' := MapOf(Entries(p, ds)), MapOf(Entries(p', ds'));
            (key in m <==> key in m') && (key in m ==> m[key] == m'[key])
  {
    var k := VarKey(ds[i].slug);
    DevicesAreIsolated(p, ds, i);
    DevicesAreIsolated(p', ds', i');
    LookupIsOwned(k, key, Entries(p, ds));
    LookupIsOwned(k, key, Entries(p', ds'));
  }

  lemma OtherField(name: string, other: string)
    requires other != name
    ensures "project" + "." + other != "project" + "." + name
  {
    assert ("project" + "." + other)[8..] == other && ("project" + "." + name)[8..] == name;
  }

  lemma NameComesOnce(p: Project, ds: seq<Device>)
    ensures var es := OwnEntries(p, ds);
            && es != [] && es[0] == Entry("project.name", p.name)
            && forall i :: 0 < i < |es| ==> es[i].key != es[0].key
  {
    var fields := ProjectFields(p, CountsOf(ds, |ds|), Sum(Downs(ds), |ds|));
    var es := Keyed("project", fields);
    assert "project" + "." + "name" == "project.name";
    forall i | 0 < i < |es| ensures es[i].key != es[0].key {
      assert fields[i].name != "name";
      OtherField("name", fields[i].name);
    }
  }

  /** A device called `project` is shadowed: its name reads as the name of the project. */
  lemma ProjectSlugIsShadowed(p: Project, ds: seq<Device>)
    ensures "project.name" in MapOf(Entries(p, ds)) && MapOf(Entries(p, ds))["project.name"] == p.name
  {
    NameComesOnce(p, ds);
    HeadOfTailWins(Flat(Blocks(ds), |ds|), OwnEntries(p, ds));
  }

  lemma HeadOfTailWins(es: seq<Entry>, tail: seq<Entry>)
    requires tail != [] && forall i :: 0 < i < |tail| ==> tail[i].key != tail[0].key
    ensures tail[0].key in MapOf(es + tail) && MapOf(es + tail)[tail[0].key] == tail[0].value
  {
    forall i | |es| < i < |es + tail| ensures (es + tail)[i] == tail[i - |es|] {}
    LastWins(es + tail, |es|);
  }

  lemma {:induction false} LastWins(es: seq<Entry>, n: nat)
    requires n < |es| && forall i :: n < i < |es| ==> es[i].key != es[n].key
    ensures es[n].key in MapOf(es) && MapOf(es)[es[n].key] == es[n].value
    decreases |es|
  {
    if n < |es| - 1 {
      LastWins(es[..|es| - 1], n);
    }
  }

  /** What a template finds under a key. */
  function Lookup(p: Project, ds: seq<Device>, key: string): Option<string> {
    var m := MapOf(Entries(p, ds));
    if key in m then Some(m[key]) else None
  }

  predicate Stores(ds: seq<Device>, d: Device) {
    StoredSlugs(ds) && d in ds
  }

  /** What is found under the prefix of the device is the same in all projects that hold it. */
  ghost predicate Independent(d: Device) {
    forall p: Project, ds: seq<Device>, p': Project, ds': seq<Device>, key: string ::
      Stores(ds, d) && Stores(ds', d) && VarKey(d.slug) + "." <= key ==> Lookup(p, ds, key) == Lookup(p', ds', key)
  }

  lemma SameLookup(p: Project, ds: seq<Device>, p': Project, ds': seq<Device>, d: Device, key: string)
    requires Stores(ds, d) && Stores(ds', d) && d.slug != "project" && VarKey(d.slug) + "." <= key
    ensures Lookup(p, ds, key) == Lookup(p', ds', key)
  {
    var i :| 0 <= i < |ds| && ds[i] == d;
    var i' :| 0 <= i' < |ds'| && ds'[i'] == d;
    LookupDependsOnDevice(p, ds, p', ds', i, i', key);
  }

  lemma NameIsFound(p: Project, ds: seq<Device>)
    ensures Lookup(p, ds, "project.name") == Some(p.name)
  {
    ProjectSlugIsShadowed(p, ds);
  }

  lemma Interferes(p: Project, p': Project, ds: seq<Device>, d: Device, key: string)
    requires Stores(ds, d) && VarKey(d.slug) + "." <= key && Lookup(p, ds, key) != Lookup(p', ds, key)
    ensures !Independent(d)
  {
  }

  lemma NameIsUnderProject()
    ensures "project" + "." <= "project.name"
  {
    assert "project" + "." == "project.name"[..8];
  }

  lemma ProjectInterferes(p: Project, p': Project, ds: seq<Device>, d: Device)
    requires d.slug == "project" && p.name != p'.name && Stores(ds, d)
    ensures !Independent(d)
  {
    ProjectKey();
    NameIsUnderProject();
    NameIsFound(p, ds);
    NameIsFound(p', ds);
    Interferes(p, p', ds, d, "project.name");
  }

  /** Of all slugs a device can have, `project` is the only one that lets its project interfere. */
  lemma IndependentIff(d: Device)
    requires Canonical(d.slug) && d.slug != ""
    ensures Independent(d) <==> d.slug != "project"
  {
    if d.slug == "project" {
      ProjectKey();
      ProjectInterferes(Project("a", "a", "UTC"), Project("b", "b", "UTC"), [d], d);
    } else {
      forall p: Project, ds: seq<Device>, p': Project, ds': seq<Device>, key: string
        | Stores(ds, d) && Stores(ds', d) && VarKey(d.slug) + "." <= key
        ensures Lookup(p, ds, key) == Lookup(p', ds', key)
      {
        SameLookup(p, ds, p', ds', d, key);
      }
    }
  }

  // ----- no catalogue key can pass for the slider parameter -----

  lemma {:induction false} MapOfKeys(es: seq<Entry>, key: string)
    requires key in MapOf(es)
    ensures exists i :: 0 <= i < |es| && es[i].key == key
  {
    var init, last := es[..|es| - 1], es[|es| - 1];
    if key == last.key {
      assert es[|es| - 1].key == key;
    } else {
      MapOfKeys(init, key);
      var i :| 0 <= i < |init| && init[i].key == key;
      assert es[i].key == key;
    }
  }

  predicate AllDotted(es: seq<Entry>) {
    forall i :: 0 <= i < |es| ==> Contains(es[i].key, '.')
  }

  lemma UnderIsDotted(k: string, es: seq<Entry>)
    requires AllUnder(k, es)
    ensures AllDotted(es)
  {
    forall i | 0 <= i < |es| ensures Contains(es[i].key, '.') {
      assert Under(k, es[i]) && es[i].key[|k|] == '.';
    }
  }

  lemma {:induction false} FlatDotted(blocks: seq<seq<Entry>>, n: nat)
    requires n <= |blocks| && forall i :: 0 <= i < n ==> AllDotted(blocks[i])
    ensures AllDotted(Flat(blocks, n))
  {
    if n > 0 {
      FlatDotted(blocks, n - 1);
    }
  }

  /** Every key of the catalogue contains a dot. */
  lemma CatalogueKeysAreDotted(p: Project, ds: seq<Device>, key: string)
    requires key in MapOf(Entries(p, ds))
    ensures Contains(key, '.')
  {
    forall i | 0 <= i < |ds| ensures AllDotted(Blocks(ds)[i]) {
      DeviceEntriesUnder(ds[i]);
      UnderIsDotted(VarKey(ds[i].slug), Blocks(ds)[i]);
    }
    FlatDotted(Blocks(ds), |ds|);
    ProjectEntriesUnder(p, ds);
    UnderIsDotted("project", OwnEntries(p, ds));
    MapOfKeys(Entries(p, ds), key);
  }

  lemma ValueIsNoKey(p: Project, ds: seq<Device>)
    ensures "value" !in MapOf(Entries(p, ds))
  {
    if "value" in MapOf(Entries(p, ds)) {
      CatalogueKeysAreDotted(p, ds, "value");
    }
  }

  /** Whatever the project holds, an action run without a slider value is refused for want of `value`
      exactly when one of its parts has a placeholder for it. */
  lemma SliderActionIsRefused(p: Project, ds: seq<Device>, a: Templates.Action, order: seq<string>,
                              usable: string -> bool)
    requires Templates.Visits(order, a)
    ensures var r := Templates.Outcome(a, order, MapOf(Entries(p, ds)), None, usable);
            (r.Err? && r.error.UnknownVars? && "value" in r.error.keys) <==> Templates.PartHoldsValue(a)
  {
    ValueIsNoKey(p, ds);
    Templates.RefusedForWantOfValue(a, order, MapOf(Entries(p, ds)), usable);
  }
}
