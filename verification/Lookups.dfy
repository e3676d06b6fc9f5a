/** What a template reads from the catalogue (hub/dashboard/variables.go:85-265): the value behind every kind of
    key, and that every key can be written as a placeholder. */
module Lookups {
  import opened Common
  import opened Slugs
  import opened Catalogue
  import Requests
  import Templates

  // ----- what is found in a list of entries -----

  function Found(es: seq<Entry>, key: string): Option<string> {
    var m := MapOf(es);
    if key in m then Some(m[key]) else None
  }

  lemma {:induction false} FoundAppend(a: seq<Entry>, b: seq<Entry>, key: string)
    ensures Found(a + b, key) == if Found(b, key).Some? then Found(b, key) else Found(a, key)
  {
    if b == [] {
      NothingMore(a);
    } else {
      var init, last := b[..|b| - 1], b[|b| - 1];
      assert a + b == (a + init) + [last] && b == init + [last];
      MapOfLast(a + init, last);
      MapOfLast(init, last);
      FoundAppend(a, init, key);
    }
  }

  lemma FoundNone(es: seq<Entry>, key: string)
    requires forall i :: 0 <= i < |es| ==> es[i].key != key
    ensures Found(es, key).None?
  {
    if key in MapOf(es) {
      MapOfKeys(es, key);
      assert false;
    }
  }

  lemma FoundElsewhere(k: string, es: seq<Entry>, key: string)
    requires AllUnder(k, es) && !(k + "." <= key)
    ensures Found(es, key).None?
  {
    forall i | 0 <= i < |es| ensures es[i].key != key {
      assert Under(k, es[i]);
    }
    FoundNone(es, key);
  }

  predicate NamesDiffer(fields: seq<Field>) {
    forall i, j :: 0 <= i < j < |fields| ==> fields[i].name != fields[j].name
  }

  lemma TailOf(base: string, a: string, b: string)
    ensures base + "." + a == base + "." + b <==> a == b
  {
    assert (base + "." + a)[|base| + 1..] == a && (base + "." + b)[|base| + 1..] == b;
  }

  lemma FoundKeyed(base: string, fields: seq<Field>, j: nat)
    requires NamesDiffer(fields) && j < |fields|
    ensures Found(Keyed(base, fields), base + "." + fields[j].name) == Some(fields[j].value)
  {
    var es := Keyed(base, fields);
    forall i | j < i < |es| ensures es[i].key != es[j].key {
      TailOf(base, fields[i].name, fields[j].name);
    }
    LastWins(es, j);
  }

  // ----- names are told apart -----

  function Code(name: string): int {
    if name == "" then 0 else |name| * 1000000 + name[0] as int * 1000 + name[|name| - 1] as int
  }

  /** The fields have names with these codes. */
  predicate Coded(fields: seq<Field>, codes: seq<int>) {
    |fields| == |codes| && forall i :: 0 <= i < |fields| ==> Code(fields[i].name) == codes[i]
  }

  lemma CodesDiffer(fields: seq<Field>, codes: seq<int>)
    requires Coded(fields, codes) && forall i, j :: 0 <= i < j < |codes| ==> codes[i] != codes[j]
    ensures NamesDiffer(fields)
  {
  }

  lemma CodedAppend(a: seq<Field>, b: seq<Field>, x: seq<int>, y: seq<int>)
    requires Coded(a, x) && Coded(b, y)
    ensures Coded(a + b, x + y)
  {
  }

  const DEVICE_CODES: seq<int> :=
    [4110101, 4115103, 6111101, 6115115, 2105112, 6108112,
     8108114, 8104101, 2111115, 4097104, 5097116,
     9104116, 3097101, 9108110, 8114107, 3099117, 3114109,
     6117101, 7114100, 10115108, 7115107, 7115111]

  lemma DeviceCodes1(d: Device, relayed: bool, ok: nat, ko: nat)
    ensures |DeviceFields(d, relayed, ok, ko)| == |DEVICE_CODES| == 22
    ensures Coded(DeviceFields(d, relayed, ok, ko)[0..6], DEVICE_CODES[0..6])
  {
  }

  lemma DeviceCodes2(d: Device, relayed: bool, ok: nat, ko: nat)
    ensures Coded(DeviceFields(d, relayed, ok, ko)[6..11], DEVICE_CODES[6..11])
  {
  }

  lemma DeviceCodes3(d: Device, relayed: bool, ok: nat, ko: nat)
    ensures Coded(DeviceFields(d, relayed, ok, ko)[11..17], DEVICE_CODES[11..17])
  {
  }

  lemma DeviceCodes4(d: Device, relayed: bool, ok: nat, ko: nat)
    ensures Coded(DeviceFields(d, relayed, ok, ko)[17..22], DEVICE_CODES[17..22])
  {
  }

  lemma DeviceCodesDiffer()
    ensures forall i, j :: 0 <= i < j < |DEVICE_CODES| ==> DEVICE_CODES[i] != DEVICE_CODES[j]
  {
  }

  lemma DeviceNamesDiffer(d: Device, relayed: bool, ok: nat, ko: nat)
    ensures NamesDiffer(DeviceFields(d, relayed, ok, ko))
  {
    hide Code, DeviceFields;
    var fs := DeviceFields(d, relayed, ok, ko);
    DeviceCodes1(d, relayed, ok, ko);
    DeviceCodes2(d, relayed, ok, ko);
    DeviceCodes3(d, relayed, ok, ko);
    DeviceCodes4(d, relayed, ok, ko);
    CodedAppend(fs[0..6], fs[6..11], DEVICE_CODES[0..6], DEVICE_CODES[6..11]);
    CodedAppend(fs[0..6] + fs[6..11], fs[11..17], DEVICE_CODES[0..6] + DEVICE_CODES[6..11], DEVICE_CODES[11..17]);
    CodedAppend(fs[0..6] + fs[6..11] + fs[11..17], fs[17..22],
                DEVICE_CODES[0..6] + DEVICE_CODES[6..11] + DEVICE_CODES[11..17], DEVICE_CODES[17..22]);
    assert fs == fs[0..6] + fs[6..11] + fs[11..17] + fs[17..22];
    assert DEVICE_CODES == DEVICE_CODES[0..6] + DEVICE_CODES[6..11] + DEVICE_CODES[11..17] + DEVICE_CODES[17..22];
    DeviceCodesDiffer();
    CodesDiffer(fs, DEVICE_CODES);
  }

  lemma SubNamesDiffer(sd: SubState, access: string)
    ensures NamesDiffer(SubFields(sd, access))
  {
    SubCodes(sd, access);
    CodesDiffer(SubFields(sd, access), [4110101, 6116116, 9114101, 5101114, 3114116, 2105112, 4112116, 6097115]);
  }

  lemma SubCodes(sd: SubState, access: string)
    ensures Coded(SubFields(sd, access), [4110101, 6116116, 9114101, 5101114, 3114116, 2105112, 4112116, 6097115])
  {
  }

  lemma ProjectNamesDiffer(p: Project, c: Counts, ko: nat)
    ensures NamesDiffer(ProjectFields(p, c, ko))
  {
    ProjectCodes(p, c, ko);
    CodesDiffer(ProjectFields(p, c, ko), [4110101, 4115103, 8116101, 13100108, 14100101, 15100101, 7112103, 7115111]);
  }

  lemma ProjectCodes(p: Project, c: Counts, ko: nat)
    ensures Coded(ProjectFields(p, c, ko), [4110101, 4115103, 8116101, 13100108, 14100101, 15100101, 7112103, 7115111])
  {
  }

  // ----- counts -----

  lemma {:induction false} CountIs(subs: seq<SubState>, n: nat)
    requires n <= |subs|
    ensures CountReachable(subs, n) == |set i | 0 <= i < n && subs[i].reachable|
    decreases n
  {
    var up := set i | 0 <= i < n && subs[i].reachable;
    if n > 0 {
      CountIs(subs, n - 1);
      var before := set i | 0 <= i < n - 1 && subs[i].reachable;
      assert up == if subs[n - 1].reachable then before + {n - 1} else before;
    }
  }

  lemma {:induction false} RelayedIs(peers: seq<Peer>, n: nat)
    requires n <= |peers|
    ensures Relayed(peers, n) <==> exists i :: 0 <= i < n && peers[i].online && !peers[i].direct
    decreases n
  {
    if n > 0 {
      RelayedIs(peers, n - 1);
    }
  }

  function Counted(ds: seq<Device>, n: nat, f: Device -> bool): set<int> {
    set i | 0 <= i < n && i < |ds| && f(ds[i])
  }

  lemma CountedNext(ds: seq<Device>, n: nat, f: Device -> bool)
    requires 0 < n <= |ds|
    ensures |Counted(ds, n, f)| == |Counted(ds, n - 1, f)| + (if f(ds[n - 1]) then 1 else 0)
  {
    assert Counted(ds, n, f) == if f(ds[n - 1]) then Counted(ds, n - 1, f) + {n - 1} else Counted(ds, n - 1, f);
  }

  function IsOnline(d: Device): bool {
    d.status == "approved" && d.online
  }

  function IsOffline(d: Device): bool {
    d.status == "approved" && !d.online
  }

  function IsPending(d: Device): bool {
    d.status == "pending"
  }

  lemma {:induction false} CountsAre(ds: seq<Device>, n: nat)
    requires n <= |ds|
    ensures CountsOf(ds, n) ==
            Counts(|Counted(ds, n, IsOnline)|, |Counted(ds, n, IsOffline)|, |Counted(ds, n, IsPending)|)
    decreases n
  {
    if n == 0 {
      assert Counted(ds, 0, IsOnline) == {} && Counted(ds, 0, IsOffline) == {} && Counted(ds, 0, IsPending) == {};
    } else {
      CountsAre(ds, n - 1);
      CountedNext(ds, n, IsOnline);
      CountedNext(ds, n, IsOffline);
      CountedNext(ds, n, IsPending);
    }
  }

  /** The configured sub-device of that name is exposed, on a device with an address. */
  predicate Exposes(d: Device, name: string, i: nat)
    requires i < |d.subDevices|
  {
    d.subDevices[i].name == name && d.subDevices[i].expose && d.tailnetIP != ""
  }

  /** Without such a sub-device there is no access address. */
  lemma {:induction false} NoAccess(d: Device, name: string, n: nat)
    requires n <= |d.subDevices| && forall i :: 0 <= i < n ==> !Exposes(d, name, i)
    ensures AccessAddress(d, name, n) == ""
    decreases n
  {
    if n > 0 {
      NoAccess(d, name, n - 1);
      assert !Exposes(d, name, n - 1);
    }
  }

  /** It is that of the last one, on the port asked for or its own. */
  lemma {:induction false} LastAccess(d: Device, name: string, n: nat, i: nat)
    requires i < n <= |d.subDevices| && Exposes(d, name, i) && forall j :: i < j < n ==> !Exposes(d, name, j)
    ensures var c := d.subDevices[i];
            AccessAddress(d, name, n) == d.tailnetIP + ":" + Decimal(if c.listen == 0 then c.port else c.listen)
    decreases n
  {
    if i < n - 1 {
      assert !Exposes(d, name, n - 1);
      LastAccess(d, name, n - 1, i);
    }
  }

  // ----- the fields of a device -----

  lemma {:induction false} ReadingsOwn(k: string, sk: string, rs: seq<ReadingResult>, n: nat)
    requires n <= |rs|
    ensures AllUnder(SubBase(k, sk) + ".readings", ReadingsEntries(k, sk, rs, n))
    decreases n
  {
    hide ReadingEntries;
    if n > 0 {
      ReadingsOwn(k, sk, rs, n - 1);
      ReadingOwn(k, sk, rs[n - 1]);
      UnderAppend(SubBase(k, sk) + ".readings", ReadingsEntries(k, sk, rs, n - 1), ReadingEntries(k, sk, rs[n - 1]));
    }
  }

  lemma ReadingOwn(k: string, sk: string, r: ReadingResult)
    ensures AllUnder(SubBase(k, sk) + ".readings", ReadingEntries(k, sk, r))
  {
    var rk, base := VarKey(r.name), SubBase(k, sk) + ".readings";
    KeyedUnder(base, base, [Field(rk, r.value), Field(rk + ".unit", r.unit), Field(rk + ".error", r.error)]);
  }

  /** What stands under a longer prefix stands under a shorter one. */
  lemma UnderShorter(k: string, more: string, es: seq<Entry>)
    requires AllUnder(k + more, es) && more != "" && more[0] == '.'
    ensures AllUnder(k, es)
  {
    forall e | e in es ensures k + "." <= e.key {
      assert Under(k + more, e);
      assert (k + more + ".")[..|k| + 1] == k + ".";
      assert e.key[..|k| + 1] == (k + more + ".")[..|k| + 1];
    }
  }

  lemma SubOwn(d: Device, k: string, sd: SubState)
    ensures AllUnder(SubBase(k, VarKey(sd.name)), SubEntries(d, k, sd))
  {
    var base := SubBase(k, VarKey(sd.name));
    KeyedUnder(base, base, SubFields(sd, AccessAddress(d, sd.name, |d.subDevices|)));
    ReadingsOwn(k, VarKey(sd.name), sd.readings, |sd.readings|);
    UnderShorter(base, ".readings", ReadingsEntries(k, VarKey(sd.name), sd.readings, |sd.readings|));
  }

  lemma SubOwnSubs(d: Device, k: string, sd: SubState)
    ensures AllUnder(k + ".subs", SubEntries(d, k, sd))
  {
    hide SubEntries;
    SubOwn(d, k, sd);
    assert SubBase(k, VarKey(sd.name)) == k + ".subs" + ("." + VarKey(sd.name));
    UnderShorter(k + ".subs", "." + VarKey(sd.name), SubEntries(d, k, sd));
  }

  lemma {:induction false} SubsOwn(d: Device, k: string, subs: seq<SubState>, n: nat)
    requires n <= |subs|
    ensures AllUnder(k + ".subs", SubsEntries(d, k, subs, n))
    decreases n
  {
    hide SubEntries;
    if n > 0 {
      SubsOwn(d, k, subs, n - 1);
      SubOwnSubs(d, k, subs[n - 1]);
      UnderAppend(k + ".subs", SubsEntries(d, k, subs, n - 1), SubEntries(d, k, subs[n - 1]));
    }
  }

  /** A field name that does not start like the sub-devices. */
  predicate NotSubs(f: string) {
    |f| < 5 || f[4] != '.'
  }

  lemma NotUnderSubs(k: string, f: string)
    requires NotSubs(f)
    ensures !(k + ".subs" + "." <= k + "." + f)
  {
    var long, key := k + ".subs" + ".", k + "." + f;
    assert long[|k| + 5] == '.' && (|f| > 4 ==> key[|k| + 5] == f[4]);
  }

  /** The fields of a device, with what is counted of it. */
  function FieldsOf(d: Device): seq<Field> {
    DeviceFields(d, Relayed(d.hb.peers, |d.hb.peers|), CountReachable(d.hb.subs, |d.hb.subs|), SubsDown(d))
  }

  lemma FieldFound(d: Device, j: nat)
    requires d.status == "approved" && VarKey(d.slug) != "" && j < |FieldsOf(d)| && NotSubs(FieldsOf(d)[j].name)
    ensures Found(Listed(d), VarKey(d.slug) + "." + FieldsOf(d)[j].name) == Some(FieldsOf(d)[j].value)
  {
    hide DeviceFields, SubsEntries;
    var k, fs := VarKey(d.slug), FieldsOf(d);
    var subs := SubsEntries(d, k, d.hb.subs, |d.hb.subs|);
    DeviceNamesDiffer(d, Relayed(d.hb.peers, |d.hb.peers|), CountReachable(d.hb.subs, |d.hb.subs|), SubsDown(d));
    FoundKeyed(k, fs, j);
    SubsOwn(d, k, d.hb.subs, |d.hb.subs|);
    NotUnderSubs(k, fs[j].name);
    FoundElsewhere(k + ".subs", subs, k + "." + fs[j].name);
    FoundAppend(Keyed(k, fs), subs, k + "." + fs[j].name);
  }

  lemma KeyIsNotEmpty(slug: string)
    requires Canonical(slug) && slug != ""
    ensures VarKey(slug) != ""
  {
    VarKeyOfSlug(slug);
  }

  /** In a stored project the lookups under a device's prefix go to its own entries. */
  lemma LookupIsFound(p: Project, ds: seq<Device>, d: Device, key: string)
    requires Stores(ds, d) && d.slug != "project" && VarKey(d.slug) + "." <= key
    ensures Lookup(p, ds, key) == Found(Listed(d), key)
  {
    hide Entries, Listed, Owned;
    var i :| 0 <= i < |ds| && ds[i] == d;
    DevicesAreIsolated(p, ds, i);
    LookupIsOwned(VarKey(d.slug), key, Entries(p, ds));
  }

  /** What a template reads under the prefix of the device. */
  function Of(p: Project, ds: seq<Device>, d: Device, f: string): Option<string> {
    Lookup(p, ds, VarKey(d.slug) + "." + f)
  }

  /** A device whose fields a template can read. */
  predicate Readable(ds: seq<Device>, d: Device) {
    Stores(ds, d) && d.slug != "project" && d.status == "approved"
  }

  lemma FieldRead(p: Project, ds: seq<Device>, d: Device, j: nat)
    requires Readable(ds, d) && j < |FieldsOf(d)| && NotSubs(FieldsOf(d)[j].name)
    ensures Of(p, ds, d, FieldsOf(d)[j].name) == Some(FieldsOf(d)[j].value)
  {
    hide FieldsOf, Listed, Lookup;
    KeyIsNotEmpty(d.slug);
    FieldFound(d, j);
    assert VarKey(d.slug) + "." <= VarKey(d.slug) + "." + FieldsOf(d)[j].name;
    LookupIsFound(p, ds, d, VarKey(d.slug) + "." + FieldsOf(d)[j].name);
  }

  /** What the keys of an approved device read: which it is. */
  lemma DeviceReadsStanding(p: Project, ds: seq<Device>, d: Device)
    requires Readable(ds, d)
    ensures Of(p, ds, d, "name") == Some(d.name)
    ensures Of(p, ds, d, "slug") == Some(d.slug)
    ensures Of(p, ds, d, "online") == Some(if d.online then "oui" else "non")
    ensures Of(p, ds, d, "status") == Some("approved")
  {
    hide Of;
    var fs := FieldsOf(d);
    assert fs[0] == Field("name", d.name);
    FieldRead(p, ds, d, 0);
    assert fs[1] == Field("slug", d.slug);
    FieldRead(p, ds, d, 1);
    assert fs[2] == Field("online", if d.online then "oui" else "non");
    FieldRead(p, ds, d, 2);
    assert fs[3] == Field("status", d.status);
    FieldRead(p, ds, d, 3);
  }

  /** Where it is: its address on the private network, and its own network. */
  lemma DeviceReadsPlace(p: Project, ds: seq<Device>, d: Device)
    requires Readable(ds, d)
    ensures Of(p, ds, d, "ip") == Some(d.tailnetIP)
    ensures Of(p, ds, d, "lan_ip") == Some(d.hb.lanIP)
    ensures Of(p, ds, d, "lan_cidr") == Some(d.hb.lanCIDR)
  {
    hide Of;
    var fs := FieldsOf(d);
    assert fs[4] == Field("ip", d.tailnetIP);
    FieldRead(p, ds, d, 4);
    assert fs[5] == Field("lan_ip", d.hb.lanIP);
    FieldRead(p, ds, d, 5);
    assert fs[6] == Field("lan_cidr", d.hb.lanCIDR);
    FieldRead(p, ds, d, 6);
  }

  /** What they read of its system; what it last reported goes before what it enrolled with. */
  lemma DeviceReadsSystem(p: Project, ds: seq<Device>, d: Device)
    requires Readable(ds, d)
    ensures Of(p, ds, d, "hostname") == Some(if d.hb.hostname != "" then d.hb.hostname else d.hostname)
    ensures Of(p, ds, d, "os") == Some(if d.hb.os != "" then d.hb.os else d.os)
    ensures Of(p, ds, d, "arch") == Some(d.arch)
    ensures Of(p, ds, d, "agent") == Some(d.agentVersion)
    ensures Of(p, ds, d, "heartbeat") == Some(d.heartbeatSeconds)
  {
    hide Of;
    var fs := FieldsOf(d);
    assert fs[7] == Field("hostname", if d.hb.hostname != "" then d.hb.hostname else d.hostname);
    FieldRead(p, ds, d, 7);
    assert fs[8] == Field("os", if d.hb.os != "" then d.hb.os else d.os);
    FieldRead(p, ds, d, 8);
    assert fs[9] == Field("arch", d.arch);
    FieldRead(p, ds, d, 9);
    assert fs[10] == Field("agent", d.agentVersion);
    FieldRead(p, ds, d, 10);
    assert fs[11] == Field("heartbeat", d.heartbeatSeconds);
    FieldRead(p, ds, d, 11);
  }

  /** What they read of its state, as long as it is online. */
  lemma DeviceReadsState(p: Project, ds: seq<Device>, d: Device)
    requires Readable(ds, d)
    ensures Of(p, ds, d, "age") == Some(d.age)
    ensures Of(p, ds, d, "last_seen") == Some(d.lastSeen)
    ensures Of(p, ds, d, "rustdesk") == Some(d.hb.rustdesk)
    ensures Of(p, ds, d, "cpu") == Some(if d.online then d.hb.cpu else "")
    ensures Of(p, ds, d, "ram") == Some(if d.online then d.hb.ram else "")
    ensures Of(p, ds, d, "uptime") == Some(if d.online then d.hb.uptime else "")
  {
    hide Of;
    var fs := FieldsOf(d);
    assert fs[12] == Field("age", d.age);
    FieldRead(p, ds, d, 12);
    assert fs[13] == Field("last_seen", d.lastSeen);
    FieldRead(p, ds, d, 13);
    assert fs[14] == Field("rustdesk", d.hb.rustdesk);
    FieldRead(p, ds, d, 14);
    assert fs[15] == Field("cpu", if d.online then d.hb.cpu else "");
    FieldRead(p, ds, d, 15);
    assert fs[16] == Field("ram", if d.online then d.hb.ram else "");
    FieldRead(p, ds, d, 16);
    assert fs[17] == Field("uptime", if d.online then d.hb.uptime else "");
    FieldRead(p, ds, d, 17);
  }

  lemma CountsRead(p: Project, ds: seq<Device>, d: Device)
    requires Readable(ds, d)
    ensures Of(p, ds, d, "relayed") == Some(YesNo(Relayed(d.hb.peers, |d.hb.peers|)))
    ensures Of(p, ds, d, "subs_total") == Some(Decimal(|d.hb.subs|))
    ensures Of(p, ds, d, "subs_ok") == Some(Decimal(CountReachable(d.hb.subs, |d.hb.subs|)))
    ensures Of(p, ds, d, "subs_ko") == Some(Decimal(SubsDown(d)))
  {
    hide Of;
    var fs := FieldsOf(d);
    assert fs[18].name == "relayed" && fs[19].name == "subs_total";
    assert fs[20].name == "subs_ok" && fs[21].name == "subs_ko";
    FieldRead(p, ds, d, 18);
    FieldRead(p, ds, d, 19);
    FieldRead(p, ds, d, 20);
    FieldRead(p, ds, d, 21);
  }

  /** What they read of its peers and sub-devices: whether one peer online is reached through a relay, and how many
      sub-devices there are, answer and do not. */
  lemma DeviceReadsCounts(p: Project, ds: seq<Device>, d: Device)
    requires Readable(ds, d)
    ensures Of(p, ds, d, "relayed") ==
            Some(if exists i :: 0 <= i < |d.hb.peers| && d.hb.peers[i].online && !d.hb.peers[i].direct
                 then "oui" else "non")
    ensures var up := |set i | 0 <= i < |d.hb.subs| && d.hb.subs[i].reachable|;
            && Of(p, ds, d, "subs_total") == Some(Decimal(|d.hb.subs|))
            && Of(p, ds, d, "subs_ok") == Some(Decimal(up))
            && Of(p, ds, d, "subs_ko") == Some(Decimal(|d.hb.subs| - up))
  {
    hide Of;
    CountsRead(p, ds, d);
    RelayedIs(d.hb.peers, |d.hb.peers|);
    CountIs(d.hb.subs, |d.hb.subs|);
  }

  // ----- the fields of a sub-device -----

  lemma OneBase(k: string, sk: string, sk': string, key: string)
    requires IsKeyPart(sk) && IsKeyPart(sk') && SubBase(k, sk) + "." <= key && SubBase(k, sk') + "." <= key
    ensures sk == sk'
  {
    var rest := key[|k| + 6..];
    assert sk + "." <= rest && sk' + "." <= rest by {
      assert (SubBase(k, sk) + ".")[|k| + 6..] == sk + "." && (SubBase(k, sk') + ".")[|k| + 6..] == sk' + ".";
    }
    OneOwner(sk, sk', Entry(rest, ""));
  }

  /** Entry `i` of the heartbeat is the last one with its key. */
  predicate LastSub(subs: seq<SubState>, i: nat)
    requires i < |subs|
  {
    VarKey(subs[i].name) != "" && forall j :: i < j < |subs| ==> VarKey(subs[j].name) != VarKey(subs[i].name)
  }

  lemma OtherSub(d: Device, k: string, sd: SubState, sk: string, key: string)
    requires IsKeyPart(sk) && SubBase(k, sk) + "." <= key && VarKey(sd.name) != sk
    ensures Found(SubEntries(d, k, sd), key).None?
  {
    VarKeyIsKeyPart(sd.name);
    SubOwn(d, k, sd);
    if SubBase(k, VarKey(sd.name)) + "." <= key {
      OneBase(k, VarKey(sd.name), sk, key);
      assert false;
    }
    FoundElsewhere(SubBase(k, VarKey(sd.name)), SubEntries(d, k, sd), key);
  }

  /** The last entry with the key decides. */
  lemma {:induction false} SubFound(d: Device, k: string, subs: seq<SubState>, i: nat, n: nat, key: string)
    requires i < n <= |subs| && LastSub(subs, i) && SubBase(k, VarKey(subs[i].name)) + "." <= key
    requires Found(SubEntries(d, k, subs[i]), key).Some?
    ensures Found(SubsEntries(d, k, subs, n), key) == Found(SubEntries(d, k, subs[i]), key)
    decreases n
  {
    hide SubEntries, Found, SubBase;
    FoundAppend(SubsEntries(d, k, subs, n - 1), SubEntries(d, k, subs[n - 1]), key);
    if i < n - 1 {
      VarKeyIsKeyPart(subs[i].name);
      OtherSub(d, k, subs[n - 1], VarKey(subs[i].name), key);
      SubFound(d, k, subs, i, n - 1, key);
    }
  }

  /** A field name does not start like the readings. */
  predicate NotReadings(f: string) {
    |f| < 9 || f[8] != '.'
  }

  lemma NotUnderReadings(base: string, f: string)
    requires NotReadings(f)
    ensures !(base + ".readings" + "." <= base + "." + f)
  {
    var long, key := base + ".readings" + ".", base + "." + f;
    assert long[|base| + 9] == '.' && (|f| > 8 ==> key[|base| + 9] == f[8]);
  }

  lemma SubFieldFound(d: Device, k: string, sd: SubState, access: string, j: nat)
    requires VarKey(sd.name) != "" && access == AccessAddress(d, sd.name, |d.subDevices|)
    requires j < |SubFields(sd, access)| && NotReadings(SubFields(sd, access)[j].name)
    ensures Found(SubEntries(d, k, sd), SubBase(k, VarKey(sd.name)) + "." + SubFields(sd, access)[j].name) ==
            Some(SubFields(sd, access)[j].value)
  {
    hide SubFields, Found, SubBase, ReadingsEntries;
    var base, fs := SubBase(k, VarKey(sd.name)), SubFields(sd, access);
    var readings := ReadingsEntries(k, VarKey(sd.name), sd.readings, |sd.readings|);
    SubNamesDiffer(sd, access);
    FoundKeyed(base, fs, j);
    ReadingsOwn(k, VarKey(sd.name), sd.readings, |sd.readings|);
    NotUnderReadings(base, fs[j].name);
    FoundElsewhere(base + ".readings", readings, base + "." + fs[j].name);
    FoundAppend(Keyed(base, fs), readings, base + "." + fs[j].name);
  }

  /** What a template reads under the prefix of a sub-device. */
  function OfSub(p: Project, ds: seq<Device>, d: Device, sd: SubState, f: string): Option<string> {
    Lookup(p, ds, SubBase(VarKey(d.slug), VarKey(sd.name)) + "." + f)
  }

  lemma SubRead(p: Project, ds: seq<Device>, d: Device, i: nat, key: string)
    requires Readable(ds, d) && i < |d.hb.subs| && LastSub(d.hb.subs, i)
    requires SubBase(VarKey(d.slug), VarKey(d.hb.subs[i].name)) + "." <= key
    requires Found(SubEntries(d, VarKey(d.slug), d.hb.subs[i]), key).Some?
    ensures Lookup(p, ds, key) == Found(SubEntries(d, VarKey(d.slug), d.hb.subs[i]), key)
  {
    hide Lookup, SubEntries, Found, FieldsOf, SubsEntries, DeviceFields;
    var k := VarKey(d.slug);
    KeyIsNotEmpty(d.slug);
    SubBaseUnder(k, VarKey(d.hb.subs[i].name), ".");
    assert k + "." <= key by {
      assert key[..|k| + 1] == (SubBase(k, VarKey(d.hb.subs[i].name)) + ".")[..|k| + 1];
    }
    LookupIsFound(p, ds, d, key);
    SubFound(d, k, d.hb.subs, i, |d.hb.subs|, key);
    FoundAppend(Keyed(k, FieldsOf(d)), SubsEntries(d, k, d.hb.subs, |d.hb.subs|), key);
    assert Listed(d) == Keyed(k, FieldsOf(d)) + SubsEntries(d, k, d.hb.subs, |d.hb.subs|) by {
      ListedIs(d);
    }
  }

  lemma ListedIs(d: Device)
    requires d.status == "approved" && VarKey(d.slug) != ""
    ensures Listed(d) == Keyed(VarKey(d.slug), FieldsOf(d)) + SubsEntries(d, VarKey(d.slug), d.hb.subs, |d.hb.subs|)
  {
  }

  lemma SubFieldRead(p: Project, ds: seq<Device>, d: Device, i: nat, j: nat)
    requires Readable(ds, d) && i < |d.hb.subs| && LastSub(d.hb.subs, i)
    requires var fs := SubFields(d.hb.subs[i], AccessAddress(d, d.hb.subs[i].name, |d.subDevices|));
             j < |fs| && NotReadings(fs[j].name)
    ensures var fs := SubFields(d.hb.subs[i], AccessAddress(d, d.hb.subs[i].name, |d.subDevices|));
            OfSub(p, ds, d, d.hb.subs[i], fs[j].name) == Some(fs[j].value)
  {
    hide Lookup, SubEntries, Found, SubFields;
    var sd, access := d.hb.subs[i], AccessAddress(d, d.hb.subs[i].name, |d.subDevices|);
    var key := SubBase(VarKey(d.slug), VarKey(sd.name)) + "." + SubFields(sd, access)[j].name;
    SubFieldFound(d, VarKey(d.slug), sd, access, j);
    SubRead(p, ds, d, i, key);
  }

  /** The part before the last colon of a target, and the part behind it. */
  lemma {:induction false} LastColonIs(t: string)
    ensures LastColon(t) >= 0 ==> t[LastColon(t)] == ':'
    ensures forall i :: LastColon(t) < i < |t| ==> t[i] != ':'
  {
    if t != "" && t[|t| - 1] != ':' {
      LastColonIs(t[..|t| - 1]);
    }
  }

  lemma TargetParts(t: string, ip: string, port: string)
    requires t == ip + ":" + port && ':' !in port
    ensures SplitTarget(t) == (ip, port)
  {
    LastColonIs(t);
    assert t[|ip|] == ':' && forall i :: |ip| < i < |t| ==> t[i] == port[i - |ip| - 1];
    assert t[..|ip|] == ip && t[|ip| + 1..] == port;
  }

  /** What the keys of a sub-device read: its last entry in the heartbeat, and where it can be reached from the
      private network. */
  lemma SubReads(p: Project, ds: seq<Device>, d: Device, i: nat)
    requires Readable(ds, d) && i < |d.hb.subs| && LastSub(d.hb.subs, i)
    ensures var sd := d.hb.subs[i];
            && OfSub(p, ds, d, sd, "name") == Some(sd.name)
            && OfSub(p, ds, d, sd, "target") == Some(sd.target)
            && OfSub(p, ds, d, sd, "reachable") == Some(if sd.reachable then "oui" else "non")
            && OfSub(p, ds, d, sd, "error") == Some(sd.error)
            && OfSub(p, ds, d, sd, "rtt") == Some(if sd.reachable then sd.rtt else "")
            && OfSub(p, ds, d, sd, "access") == Some(AccessAddress(d, sd.name, |d.subDevices|))
  {
    hide OfSub;
    var sd, access := d.hb.subs[i], AccessAddress(d, d.hb.subs[i].name, |d.subDevices|);
    var fs := SubFields(sd, access);
    assert fs[0] == Field("name", sd.name) && fs[1] == Field("target", sd.target);
    assert fs[2] == Field("reachable", if sd.reachable then "oui" else "non") && fs[3] == Field("error", sd.error);
    assert fs[4] == Field("rtt", if sd.reachable then sd.rtt else "") && fs[7] == Field("access", access);
    SubFieldRead(p, ds, d, i, 0);
    SubFieldRead(p, ds, d, i, 1);
    SubFieldRead(p, ds, d, i, 2);
    SubFieldRead(p, ds, d, i, 3);
    SubFieldRead(p, ds, d, i, 4);
    SubFieldRead(p, ds, d, i, 7);
  }

  /** Of its target they read what stands before and behind the last colon; without one, all of it and no port. */
  lemma SubReadsTarget(p: Project, ds: seq<Device>, d: Device, i: nat, ip: string, port: string)
    requires Readable(ds, d) && i < |d.hb.subs| && LastSub(d.hb.subs, i)
    requires var t := d.hb.subs[i].target;
             if ':' in t then t == ip + ":" + port && ':' !in port else t == ip && port == ""
    ensures OfSub(p, ds, d, d.hb.subs[i], "ip") == Some(ip) && OfSub(p, ds, d, d.hb.subs[i], "port") == Some(port)
  {
    hide OfSub;
    var sd, access := d.hb.subs[i], AccessAddress(d, d.hb.subs[i].name, |d.subDevices|);
    var fs := SubFields(sd, access);
    if ':' in sd.target {
      TargetParts(sd.target, ip, port);
    } else {
      LastColonIs(sd.target);
    }
    assert fs[5] == Field("ip", ip) && fs[6] == Field("port", port);
    SubFieldRead(p, ds, d, i, 5);
    SubFieldRead(p, ds, d, i, 6);
  }

  // ----- readings -----

  function ReadingFields(r: ReadingResult): seq<Field> {
    var rk := VarKey(r.name);
    [Field(rk, r.value), Field(rk + ".unit", r.unit), Field(rk + ".error", r.error)]
  }

  predicate LastReading(rs: seq<ReadingResult>, j: nat)
    requires j < |rs|
  {
    VarKey(rs[j].name) != "" && forall i :: j < i < |rs| ==> VarKey(rs[i].name) != VarKey(rs[j].name)
  }

  /** The key is that of the reading, by itself or with one of the two endings. */
  predicate KeyOfReading(base: string, rk: string, key: string) {
    key == base + "." + rk || key == base + "." + (rk + ".unit") || key == base + "." + (rk + ".error")
  }

  lemma UpToDot(rk: string, rk': string, a: string, b: string)
    requires IsKeyPart(rk) && IsKeyPart(rk') && rk + a == rk' + b
    requires (a == "" || a[0] == '.') && (b == "" || b[0] == '.')
    ensures rk == rk'
  {
    var s := rk + a;
    assert |rk| < |s| ==> s[|rk|] == '.';
    assert |rk'| < |s| ==> s[|rk'|] == '.';
    assert forall i :: 0 <= i < |rk| ==> s[i] == rk[i];
    assert forall i :: 0 <= i < |rk'| ==> s[i] == rk'[i];
    assert rk == s[..|rk|] && rk' == s[..|rk'|];
  }

  lemma OtherReading(k: string, sk: string, r: ReadingResult, rk: string, key: string)
    requires IsKeyPart(rk) && VarKey(r.name) != rk && KeyOfReading(SubBase(k, sk) + ".readings", rk, key)
    ensures Found(ReadingEntries(k, sk, r), key).None?
  {
    var es, base, rk' := ReadingEntries(k, sk, r), SubBase(k, sk) + ".readings", VarKey(r.name);
    VarKeyIsKeyPart(r.name);
    forall i | 0 <= i < |es| ensures es[i].key != key {
      var name' := ReadingFields(r)[i].name;
      assert es[i].key == base + "." + name';
      if es[i].key == key {
        var name := key[|base| + 1..];
        assert (base + "." + name')[|base| + 1..] == name';
        assert (base + "." + rk)[|base| + 1..] == rk && (base + "." + (rk + ".unit"))[|base| + 1..] == rk + ".unit";
        assert (base + "." + (rk + ".error"))[|base| + 1..] == rk + ".error";
        var a := if name == rk then "" else if name == rk + ".unit" then ".unit" else ".error";
        var b := if i == 0 then "" else if i == 1 then ".unit" else ".error";
        assert rk + a == name && rk' + b == name';
        UpToDot(rk, rk', a, b);
        assert false;
      }
    }
    FoundNone(es, key);
  }

  lemma {:induction false} ReadingFound(k: string, sk: string, rs: seq<ReadingResult>, j: nat, n: nat, key: string)
    requires j < n <= |rs| && LastReading(rs, j)
    requires KeyOfReading(SubBase(k, sk) + ".readings", VarKey(rs[j].name), key)
    requires Found(ReadingEntries(k, sk, rs[j]), key).Some?
    ensures Found(ReadingsEntries(k, sk, rs, n), key) == Found(ReadingEntries(k, sk, rs[j]), key)
    decreases n
  {
    hide ReadingEntries, Found, KeyOfReading;
    FoundAppend(ReadingsEntries(k, sk, rs, n - 1), ReadingEntries(k, sk, rs[n - 1]), key);
    if j < n - 1 {
      VarKeyIsKeyPart(rs[j].name);
      OtherReading(k, sk, rs[n - 1], VarKey(rs[j].name), key);
      ReadingFound(k, sk, rs, j, n - 1, key);
    }
  }

  lemma ReadingNamesDiffer(r: ReadingResult)
    ensures NamesDiffer(ReadingFields(r))
  {
    var rk := VarKey(r.name);
    assert |rk| < |rk + ".unit"| && |rk + ".unit"| != |rk + ".error"|;
  }

  lemma ReadingInSub(d: Device, k: string, sd: SubState, j: nat, n: nat)
    requires VarKey(sd.name) != "" && j < |sd.readings| && LastReading(sd.readings, j) && n < 3
    ensures var f := ReadingFields(sd.readings[j])[n];
            Found(SubEntries(d, k, sd), SubBase(k, VarKey(sd.name)) + ".readings" + "." + f.name) == Some(f.value)
  {
    hide Found, SubBase, SubFields, ReadingsEntries;
    var sk, r := VarKey(sd.name), sd.readings[j];
    var key := SubBase(k, sk) + ".readings" + "." + ReadingFields(r)[n].name;
    ReadingNamesDiffer(r);
    FoundKeyed(SubBase(k, sk) + ".readings", ReadingFields(r), n);
    ReadingFound(k, sk, sd.readings, j, |sd.readings|, key);
    FoundAppend(Keyed(SubBase(k, sk), SubFields(sd, AccessAddress(d, sd.name, |d.subDevices|))),
                ReadingsEntries(k, sk, sd.readings, |sd.readings|), key);
  }

  lemma ReadingKey(base: string, name: string)
    ensures base + ".readings" + "." + name == base + "." + ("readings" + "." + name)
  {
    assert ".readings" == "." + "readings";
  }

  lemma SubKeyRead(p: Project, ds: seq<Device>, d: Device, i: nat, f: string, v: string)
    requires Readable(ds, d) && i < |d.hb.subs| && LastSub(d.hb.subs, i)
    requires var k, sd := VarKey(d.slug), d.hb.subs[i];
             Found(SubEntries(d, k, sd), SubBase(k, VarKey(sd.name)) + "." + f) == Some(v)
    ensures OfSub(p, ds, d, d.hb.subs[i], f) == Some(v)
  {
    hide Lookup, SubBase, Found, SubEntries, Readable, LastSub;
    SubRead(p, ds, d, i, SubBase(VarKey(d.slug), VarKey(d.hb.subs[i].name)) + "." + f);
  }

  lemma ReadingRead(p: Project, ds: seq<Device>, d: Device, i: nat, j: nat, n: nat)
    requires Readable(ds, d) && i < |d.hb.subs| && LastSub(d.hb.subs, i)
    requires j < |d.hb.subs[i].readings| && LastReading(d.hb.subs[i].readings, j) && n < 3
    ensures var f := ReadingFields(d.hb.subs[i].readings[j])[n];
            OfSub(p, ds, d, d.hb.subs[i], "readings" + "." + f.name) == Some(f.value)
  {
    var k, sd := VarKey(d.slug), d.hb.subs[i];
    var f := ReadingFields(sd.readings[j])[n];
    hide SubBase, Found, SubEntries, Readable, LastReading, ReadingFields, OfSub;
    ReadingInSub(d, k, sd, j, n);
    ReadingKey(SubBase(k, VarKey(sd.name)), f.name);
    SubKeyRead(p, ds, d, i, "readings" + "." + f.name, f.value);
  }

  /** What the keys of a reading read: the last reading with its key. */
  lemma ReadingReads(p: Project, ds: seq<Device>, d: Device, i: nat, j: nat)
    requires Readable(ds, d) && i < |d.hb.subs| && LastSub(d.hb.subs, i)
    requires j < |d.hb.subs[i].readings| && LastReading(d.hb.subs[i].readings, j)
    ensures var r := d.hb.subs[i].readings[j];
            var key := "readings" + "." + VarKey(r.name);
            && OfSub(p, ds, d, d.hb.subs[i], key) == Some(r.value)
            && OfSub(p, ds, d, d.hb.subs[i], key + ".unit") == Some(r.unit)
            && OfSub(p, ds, d, d.hb.subs[i], key + ".error") == Some(r.error)
  {
    hide OfSub;
    var rk := VarKey(d.hb.subs[i].readings[j].name);
    ReadingRead(p, ds, d, i, j, 0);
    ReadingRead(p, ds, d, i, j, 1);
    ReadingRead(p, ds, d, i, j, 2);
    assert "readings" + "." + (rk + ".unit") == "readings" + "." + rk + ".unit";
    assert "readings" + "." + (rk + ".error") == "readings" + "." + rk + ".error";
  }

  // ----- the project -----

  function DownTotal(ds: seq<Device>): nat {
    Sum(Downs(ds), |ds|)
  }

  function Totals(ds: seq<Device>): Counts {
    CountsOf(ds, |ds|)
  }

  function OwnFields(p: Project, ds: seq<Device>): seq<Field> {
    ProjectFields(p, Totals(ds), DownTotal(ds))
  }

  lemma OwnRead(p: Project, ds: seq<Device>, j: nat)
    requires j < |OwnFields(p, ds)|
    ensures Lookup(p, ds, "project" + "." + OwnFields(p, ds)[j].name) == Some(OwnFields(p, ds)[j].value)
  {
    hide ProjectFields, Flat;
    var fs := OwnFields(p, ds);
    ProjectNamesDiffer(p, Totals(ds), DownTotal(ds));
    FoundKeyed("project", fs, j);
    FoundAppend(Flat(Blocks(ds), |ds|), OwnEntries(p, ds), "project" + "." + fs[j].name);
  }

  lemma {:induction false} DownIs(subs: seq<SubState>, n: nat)
    requires n <= |subs|
    ensures n - CountReachable(subs, n) == |set i | 0 <= i < n && !subs[i].reachable|
    decreases n
  {
    var down := set i | 0 <= i < n && !subs[i].reachable;
    if n > 0 {
      DownIs(subs, n - 1);
      var before := set i | 0 <= i < n - 1 && !subs[i].reachable;
      assert down == if subs[n - 1].reachable then before else before + {n - 1};
    }
  }

  lemma DeviceDownIs(d: Device)
    ensures DeviceDown(d) == if d.status == "approved" && VarKey(d.slug) != ""
                             then |set i | 0 <= i < |d.hb.subs| && !d.hb.subs[i].reachable| else 0
  {
    DownIs(d.hb.subs, |d.hb.subs|);
  }

  /** The unreachable sub-devices of the approved devices, all together. */
  function AllDown(ds: seq<Device>, n: nat): nat
    requires n <= |ds|
  {
    if n == 0 then 0
    else
      var d := ds[n - 1];
      AllDown(ds, n - 1) + (if d.status == "approved" && VarKey(d.slug) != ""
                            then |set i | 0 <= i < |d.hb.subs| && !d.hb.subs[i].reachable| else 0)
  }

  lemma {:induction false} AllDownIs(ds: seq<Device>, n: nat)
    requires n <= |ds|
    ensures Sum(Downs(ds), n) == AllDown(ds, n)
    decreases n
  {
    hide DeviceDown;
    if n > 0 {
      AllDownIs(ds, n - 1);
      DeviceDownIs(ds[n - 1]);
    }
  }

  /** What the keys of the project read, whatever its devices are called. */
  lemma ProjectReads(p: Project, ds: seq<Device>)
    ensures Lookup(p, ds, "project" + "." + "name") == Some(p.name)
    ensures Lookup(p, ds, "project" + "." + "slug") == Some(p.slug)
    ensures Lookup(p, ds, "project" + "." + "timezone") == Some(p.timezone)
  {
    hide Lookup;
    var fs := OwnFields(p, ds);
    assert fs[0] == Field("name", p.name) && fs[1] == Field("slug", p.slug) && fs[2] == Field("timezone", p.timezone);
    OwnRead(p, ds, 0);
    OwnRead(p, ds, 1);
    OwnRead(p, ds, 2);
  }

  lemma TotalsAre(ds: seq<Device>)
    ensures Totals(ds) ==
            Counts(|Counted(ds, |ds|, IsOnline)|, |Counted(ds, |ds|, IsOffline)|, |Counted(ds, |ds|, IsPending)|)
    ensures DownTotal(ds) == AllDown(ds, |ds|)
  {
    CountsAre(ds, |ds|);
    AllDownIs(ds, |ds|);
  }

  lemma CountFields(p: Project, c: Counts, ko: nat)
    ensures var fs := ProjectFields(p, c, ko);
            && |fs| == 8
            && fs[3] == Field("devices_total", Decimal(c.online + c.offline))
            && fs[4] == Field("devices_online", Decimal(c.online))
            && fs[5] == Field("devices_offline", Decimal(c.offline))
            && fs[6] == Field("pending", Decimal(c.pending))
            && fs[7] == Field("subs_ko", Decimal(ko))
  {
  }

  /** And of its devices: how many are online, offline and pending, and how many sub-devices do not answer. */
  lemma ProjectReadsCounts(p: Project, ds: seq<Device>)
    ensures var on, off := |Counted(ds, |ds|, IsOnline)|, |Counted(ds, |ds|, IsOffline)|;
            && Lookup(p, ds, "project" + "." + "devices_total") == Some(Decimal(on + off))
            && Lookup(p, ds, "project" + "." + "devices_online") == Some(Decimal(on))
            && Lookup(p, ds, "project" + "." + "devices_offline") == Some(Decimal(off))
    ensures Lookup(p, ds, "project" + "." + "pending") == Some(Decimal(|Counted(ds, |ds|, IsPending)|))
    ensures Lookup(p, ds, "project" + "." + "subs_ko") == Some(Decimal(AllDown(ds, |ds|)))
  {
    hide Lookup, Totals, DownTotal, Counted, AllDown, ProjectFields, Decimal, IsOnline, IsOffline, IsPending;
    TotalsAre(ds);
    CountFields(p, Totals(ds), DownTotal(ds));
    OwnRead(p, ds, 3);
    OwnRead(p, ds, 4);
    OwnRead(p, ds, 5);
    OwnRead(p, ds, 6);
    OwnRead(p, ds, 7);
  }

  // ----- every key can be written as a placeholder -----

  predicate KeyChars(s: string) {
    forall i :: 0 <= i < |s| ==> Templates.IsKeyChar(s[i])
  }

  predicate AllKeyNames(fields: seq<Field>) {
    forall i :: 0 <= i < |fields| ==> KeyChars(fields[i].name)
  }

  predicate AllKeys(es: seq<Entry>) {
    forall e :: e in es ==> Requests.IsKey(e.key)
  }

  lemma CharsAppend(a: string, b: string)
    requires KeyChars(a) && KeyChars(b)
    ensures KeyChars(a + b)
  {
  }

  lemma PartChars(s: string)
    ensures KeyChars(VarKey(s))
  {
    VarKeyIsKeyPart(s);
    forall i | 0 <= i < |VarKey(s)| ensures Templates.IsKeyChar(VarKey(s)[i]) {
      assert IsAlnum(VarKey(s)[i]) || VarKey(s)[i] == '_';
    }
  }

  lemma KeyedAreKeys(base: string, fields: seq<Field>)
    requires KeyChars(base) && AllKeyNames(fields)
    ensures AllKeys(Keyed(base, fields))
  {
    forall i | 0 <= i < |fields| ensures Requests.IsKey(base + "." + fields[i].name) {
      CharsAppend(base, ".");
      CharsAppend(base + ".", fields[i].name);
    }
  }

  lemma KeysAppend(a: seq<Entry>, b: seq<Entry>)
    requires AllKeys(a) && AllKeys(b)
    ensures AllKeys(a + b)
  {
  }

  lemma {:induction false} FlatKeys(blocks: seq<seq<Entry>>, n: nat)
    requires n <= |blocks| && forall i :: 0 <= i < n ==> AllKeys(blocks[i])
    ensures AllKeys(Flat(blocks, n))
  {
    if n > 0 {
      FlatKeys(blocks, n - 1);
      KeysAppend(Flat(blocks, n - 1), blocks[n - 1]);
    }
  }

  lemma SubBaseChars(k: string, sk: string)
    requires KeyChars(k) && KeyChars(sk)
    ensures KeyChars(SubBase(k, sk)) && KeyChars(SubBase(k, sk) + ".readings")
  {
    CharsAppend(k, ".subs.");
    CharsAppend(k + ".subs.", sk);
    CharsAppend(SubBase(k, sk), ".readings");
  }

  lemma ReadingKeys(k: string, sk: string, r: ReadingResult)
    requires KeyChars(k) && KeyChars(sk)
    ensures AllKeys(ReadingEntries(k, sk, r))
  {
    var rk := VarKey(r.name);
    PartChars(r.name);
    SubBaseChars(k, sk);
    CharsAppend(rk, ".unit");
    CharsAppend(rk, ".error");
    KeyedAreKeys(SubBase(k, sk) + ".readings", ReadingFields(r));
  }

  lemma {:induction false} ReadingsKeys(k: string, sk: string, rs: seq<ReadingResult>, n: nat)
    requires n <= |rs| && KeyChars(k) && KeyChars(sk)
    ensures AllKeys(ReadingsEntries(k, sk, rs, n))
    decreases n
  {
    hide ReadingEntries, KeyChars;
    if n > 0 {
      ReadingsKeys(k, sk, rs, n - 1);
      ReadingKeys(k, sk, rs[n - 1]);
      KeysAppend(ReadingsEntries(k, sk, rs, n - 1), ReadingEntries(k, sk, rs[n - 1]));
    }
  }

  lemma SubFieldKeys(sd: SubState, access: string)
    ensures AllKeyNames(SubFields(sd, access))
  {
  }

  lemma SubKeys(d: Device, k: string, sd: SubState)
    requires KeyChars(k)
    ensures AllKeys(SubEntries(d, k, sd))
  {
    hide SubFields, KeyChars, ReadingsEntries;
    var sk, access := VarKey(sd.name), AccessAddress(d, sd.name, |d.subDevices|);
    PartChars(sd.name);
    SubBaseChars(k, sk);
    SubFieldKeys(sd, access);
    KeyedAreKeys(SubBase(k, sk), SubFields(sd, access));
    ReadingsKeys(k, sk, sd.readings, |sd.readings|);
    KeysAppend(Keyed(SubBase(k, sk), SubFields(sd, access)), ReadingsEntries(k, sk, sd.readings, |sd.readings|));
  }

  lemma {:induction false} SubsKeys(d: Device, k: string, subs: seq<SubState>, n: nat)
    requires n <= |subs| && KeyChars(k)
    ensures AllKeys(SubsEntries(d, k, subs, n))
    decreases n
  {
    hide SubEntries, KeyChars;
    if n > 0 {
      SubsKeys(d, k, subs, n - 1);
      SubKeys(d, k, subs[n - 1]);
      KeysAppend(SubsEntries(d, k, subs, n - 1), SubEntries(d, k, subs[n - 1]));
    }
  }

  lemma DeviceFieldKeys1(d: Device, relayed: bool, ok: nat, ko: nat)
    ensures |DeviceFields(d, relayed, ok, ko)| == 22
    ensures AllKeyNames(DeviceFields(d, relayed, ok, ko)[0..4])
  {
  }

  lemma DeviceFieldKeys2(d: Device, relayed: bool, ok: nat, ko: nat)
    ensures |DeviceFields(d, relayed, ok, ko)| == 22
    ensures AllKeyNames(DeviceFields(d, relayed, ok, ko)[4..8])
  {
  }

  lemma DeviceFieldKeys3(d: Device, relayed: bool, ok: nat, ko: nat)
    ensures |DeviceFields(d, relayed, ok, ko)| == 22
    ensures AllKeyNames(DeviceFields(d, relayed, ok, ko)[8..11])
  {
  }

  lemma DeviceFieldKeys4(d: Device, relayed: bool, ok: nat, ko: nat)
    ensures |DeviceFields(d, relayed, ok, ko)| == 22
    ensures AllKeyNames(DeviceFields(d, relayed, ok, ko)[11..14])
  {
  }

  lemma DeviceFieldKeys5(d: Device, relayed: bool, ok: nat, ko: nat)
    ensures |DeviceFields(d, relayed, ok, ko)| == 22
    ensures AllKeyNames(DeviceFields(d, relayed, ok, ko)[14..18])
  {
  }

  lemma DeviceFieldKeys6(d: Device, relayed: bool, ok: nat, ko: nat)
    ensures |DeviceFields(d, relayed, ok, ko)| == 22
    ensures AllKeyNames(DeviceFields(d, relayed, ok, ko)[18..22])
  {
  }

  lemma NamesAppend(a: seq<Field>, b: seq<Field>)
    requires AllKeyNames(a) && AllKeyNames(b)
    ensures AllKeyNames(a + b)
  {
  }

  lemma DeviceFieldKeys(d: Device, relayed: bool, ok: nat, ko: nat)
    ensures AllKeyNames(DeviceFields(d, relayed, ok, ko))
  {
    hide DeviceFields, KeyChars;
    var fs := DeviceFields(d, relayed, ok, ko);
    DeviceFieldKeys1(d, relayed, ok, ko);
    DeviceFieldKeys2(d, relayed, ok, ko);
    DeviceFieldKeys3(d, relayed, ok, ko);
    DeviceFieldKeys4(d, relayed, ok, ko);
    DeviceFieldKeys5(d, relayed, ok, ko);
    DeviceFieldKeys6(d, relayed, ok, ko);
    NamesAppend(fs[0..4], fs[4..8]);
    NamesAppend(fs[0..4] + fs[4..8], fs[8..11]);
    NamesAppend(fs[0..4] + fs[4..8] + fs[8..11], fs[11..14]);
    NamesAppend(fs[0..4] + fs[4..8] + fs[8..11] + fs[11..14], fs[14..18]);
    NamesAppend(fs[0..4] + fs[4..8] + fs[8..11] + fs[11..14] + fs[14..18], fs[18..22]);
    assert fs == fs[0..4] + fs[4..8] + fs[8..11] + fs[11..14] + fs[14..18] + fs[18..22];
  }

  lemma DeviceKeys(d: Device)
    ensures AllKeys(Listed(d))
  {
    hide DeviceFields, KeyChars, SubsEntries;
    var k := VarKey(d.slug);
    if d.status == "approved" && k != "" {
      PartChars(d.slug);
      DeviceFieldKeys(d, Relayed(d.hb.peers, |d.hb.peers|), CountReachable(d.hb.subs, |d.hb.subs|), SubsDown(d));
      KeyedAreKeys(k, FieldsOf(d));
      SubsKeys(d, k, d.hb.subs, |d.hb.subs|);
      ListedIs(d);
      KeysAppend(Keyed(k, FieldsOf(d)), SubsEntries(d, k, d.hb.subs, |d.hb.subs|));
    }
  }

  lemma ProjectFieldKeys1(p: Project, c: Counts, ko: nat)
    ensures |ProjectFields(p, c, ko)| == 8
    ensures AllKeyNames(ProjectFields(p, c, ko)[0..4])
  {
  }

  lemma ProjectFieldKeys2(p: Project, c: Counts, ko: nat)
    ensures |ProjectFields(p, c, ko)| == 8
    ensures AllKeyNames(ProjectFields(p, c, ko)[4..8])
  {
  }

  lemma ProjectFieldKeys(p: Project, c: Counts, ko: nat)
    ensures AllKeyNames(ProjectFields(p, c, ko))
  {
    hide ProjectFields, KeyChars;
    var fs := ProjectFields(p, c, ko);
    ProjectFieldKeys1(p, c, ko);
    ProjectFieldKeys2(p, c, ko);
    NamesAppend(fs[0..4], fs[4..8]);
    assert fs == fs[0..4] + fs[4..8];
  }

  lemma OwnKeys(p: Project, ds: seq<Device>)
    ensures AllKeys(OwnEntries(p, ds))
  {
    hide ProjectFields;
    ProjectFieldKeys(p, Totals(ds), DownTotal(ds));
    KeyedAreKeys("project", OwnFields(p, ds));
  }

  /** Whatever the project holds, the placeholder for a key of its catalogue is replaced by the value of that key,
      and nothing is missing. */
  lemma EveryKeyResolves(p: Project, ds: seq<Device>, key: string)
    requires key in MapOf(Entries(p, ds))
    ensures Templates.Resolved(Requests.Placeholder(key), MapOf(Entries(p, ds))) == (MapOf(Entries(p, ds))[key], [])
  {
    hide Listed, OwnEntries;
    var es := Entries(p, ds);
    forall i | 0 <= i < |ds| ensures AllKeys(Blocks(ds)[i]) {
      DeviceKeys(ds[i]);
    }
    FlatKeys(Blocks(ds), |ds|);
    OwnKeys(p, ds);
    KeysAppend(Flat(Blocks(ds), |ds|), OwnEntries(p, ds));
    MapOfKeys(es, key);
    var i :| 0 <= i < |es| && es[i].key == key;
    assert es[i] in es;
    Requests.PlaceholderResolves(key, MapOf(es));
  }
}
