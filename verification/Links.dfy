/** Device configurations and the linking pass (hub/dashboard/models.go).

    A configuration says twice that a sub-device is reachable from the private network: the
    sub-device carries `expose` and `listen`, and a forward carries the sub-device's name in `sub`.
    `Link` recomputes the first from the second, one forward at a time. */
module Links {
  import opened Common

  datatype Reading = Reading(name: string, verb: string, path: string, body: string,
                             json: string, regex: string, unit: string)

  datatype SubDevice = SubDevice(name: string, ip: string, port: int,
                                 expose: bool, listen: int, readings: seq<Reading>)

  datatype Forward = Forward(name: string, proto: string, listen: int, target: string, sub: string)

  datatype Update = Update(enabled: bool, checkHours: int)

  datatype Config = Config(name: string, heartbeatSeconds: int, subDevices: seq<SubDevice>,
                           forwards: seq<Forward>, update: Update, processor: Option<SubDevice>)

  function Target(sd: SubDevice): string {
    sd.ip + ":" + Decimal(sd.port)
  }

  // ----- one linking pass -----

  /** The index the name map holds for `name`: the last sub-device so named, -1 when there is none. */
  function LastNamed(subs: seq<SubDevice>, name: string): (j: int)
    ensures -1 <= j < |subs|
    ensures j >= 0 ==> subs[j].name == name
  {
    if subs == [] then -1
    else if subs[|subs| - 1].name == name then |subs| - 1
    else LastNamed(subs[..|subs| - 1], name)
  }

  lemma {:induction false} LastNamedIs(subs: seq<SubDevice>, name: string)
    ensures forall i :: LastNamed(subs, name) < i < |subs| ==> subs[i].name != name
    decreases |subs|
  {
    if subs != [] && subs[|subs| - 1].name != name {
      LastNamedIs(subs[..|subs| - 1], name);
    }
  }

  lemma LastNamedAt(subs: seq<SubDevice>, i: nat)
    requires i < |subs| && forall k :: i < k < |subs| ==> subs[k].name != subs[i].name
    ensures LastNamed(subs, subs[i].name) == i
  {
    LastNamedIs(subs, subs[i].name);
  }

  /** A sub-device that a free forward to `target` would be linked to. */
  predicate Claims(sd: SubDevice, target: string) {
    !sd.expose && sd.ip != "" && target == Target(sd)
  }

  /** The first sub-device, from index `i` on, that claims `target`; -1 when there is none. */
  function FirstClaim(subs: seq<SubDevice>, target: string, i: nat): (j: int)
    requires i <= |subs|
    ensures j == -1 || (i <= j < |subs| && Claims(subs[j], target))
    decreases |subs| - i
  {
    if i == |subs| then -1
    else if Claims(subs[i], target) then i
    else FirstClaim(subs, target, i + 1)
  }

  lemma {:induction false} FirstClaimIs(subs: seq<SubDevice>, target: string, i: nat)
    requires i <= |subs|
    ensures var j := FirstClaim(subs, target, i);
            forall k :: i <= k < (if j >= 0 then j else |subs|) ==> !Claims(subs[k], target)
    decreases |subs| - i
  {
    if i < |subs| && !Claims(subs[i], target) {
      FirstClaimIs(subs, target, i + 1);
    }
  }

  lemma FirstClaimAt(subs: seq<SubDevice>, target: string, i: nat)
    requires i < |subs| && Claims(subs[i], target)
    ensures 0 <= FirstClaim(subs, target, 0) <= i
    ensures (forall k :: 0 <= k < i ==> !Claims(subs[k], target)) ==> FirstClaim(subs, target, 0) == i
  {
    FirstClaimIs(subs, target, 0);
  }

  function Exposed(subs: seq<SubDevice>, j: nat, listen: int): seq<SubDevice>
    requires j < |subs|
  {
    subs[j := subs[j].(expose := true, listen := listen)]
  }

  predicate IsTcp(f: Forward) {
    f.proto == "" || f.proto == "tcp"
  }

  /** One turn of the loop over the forwards. */
  function LinkOne(subs: seq<SubDevice>, f: Forward): (seq<SubDevice>, Forward) {
    if f.sub != "" then
      var j := LastNamed(subs, f.sub);
      if j >= 0 && !subs[j].expose then (Exposed(subs, j, f.listen), f) else (subs, f.(sub := ""))
    else if !IsTcp(f) then
      (subs, f)
    else
      var j := FirstClaim(subs, f.target, 0);
      if j < 0 then (subs, f) else (Exposed(subs, j, f.listen), f.(sub := subs[j].name))
  }

  function Link(subs: seq<SubDevice>, fs: seq<Forward>): (r: (seq<SubDevice>, seq<Forward>))
    ensures |r.1| == |fs|
    decreases |fs|
  {
    if fs == [] then (subs, [])
    else
      var turn := LinkOne(subs, fs[0]);
      var rest := Link(turn.0, fs[1..]);
      (rest.0, [turn.1] + rest.1)
  }

  lemma {:induction false} LinkAppend(subs: seq<SubDevice>, fs: seq<Forward>, gs: seq<Forward>)
    ensures Link(subs, fs + gs)
         == (Link(Link(subs, fs).0, gs).0, Link(subs, fs).1 + Link(Link(subs, fs).0, gs).1)
    decreases |fs|
  {
    if fs == [] {
      assert fs + gs == gs && [] + Link(subs, gs).1 == Link(subs, gs).1;
    } else {
      assert (fs + gs)[1..] == fs[1..] + gs;
      var (subs1, f1) := LinkOne(subs, fs[0]);
      LinkAppend(subs1, fs[1..], gs);
      var (subs2, out) := Link(subs1, fs[1..]);
      assert [f1] + (out + Link(subs2, gs).1) == [f1] + out + Link(subs2, gs).1;
    }
  }

  lemma LinkLast(subs: seq<SubDevice>, fs: seq<Forward>, f: Forward)
    ensures var (subs1, out) := Link(subs, fs);
            Link(subs, fs + [f]) == (LinkOne(subs1, f).0, out + [LinkOne(subs1, f).1])
  {
    LinkAppend(subs, fs, [f]);
    var (subs1, f1) := LinkOne(Link(subs, fs).0, f);
    assert Link(subs1, []) == (subs1, []);
    assert [f][1..] == [];
    assert [f1] + [] == [f1];
  }

  /** The pass leaves the forwards as they are and gives those sub-devices. */
  predicate Gives(subs: seq<SubDevice>, fs: seq<Forward>, open: seq<SubDevice>) {
    Link(subs, fs) == (open, fs)
  }

  lemma GivesMore(subs: seq<SubDevice>, fs: seq<Forward>, open: seq<SubDevice>, f: Forward, more: seq<SubDevice>)
    requires Gives(subs, fs, open) && LinkOne(open, f) == (more, f)
    ensures Gives(subs, fs + [f], more)
  {
    LinkLast(subs, fs, f);
  }

  // ----- what a pass leaves alone -----

  predicate Named(subs: seq<SubDevice>) {
    forall i :: 0 <= i < |subs| ==> subs[i].name != ""
  }

  predicate DistinctNames(subs: seq<SubDevice>) {
    && (forall i :: 0 <= i < |subs| ==> subs[i].name != "")
    && (forall i, j :: 0 <= i < j < |subs| ==> subs[i].name != subs[j].name)
  }

  /** The same sub-devices up to their exposure. */
  predicate SameDevices(a: seq<SubDevice>, b: seq<SubDevice>) {
    && |a| == |b|
    && forall i :: 0 <= i < |a| ==> a[i] == b[i].(expose := a[i].expose, listen := a[i].listen)
  }

  lemma SameNamed(a: seq<SubDevice>, b: seq<SubDevice>, name: string)
    requires SameDevices(a, b)
    ensures LastNamed(a, name) == LastNamed(b, name)
  {
    LastNamedIs(a, name);
    LastNamedIs(b, name);
    assert forall k :: 0 <= k < |a| ==> a[k].name == b[k].name;
  }

  /** Linking only ever writes `expose` and `listen` of sub-devices and `sub` of forwards,
      and never withdraws an exposure. */
  lemma {:induction false} LinkFrame(subs: seq<SubDevice>, fs: seq<Forward>)
    ensures var (subs', fs') := Link(subs, fs);
            && SameDevices(subs', subs)
            && (forall i :: 0 <= i < |subs| && subs[i].expose ==> subs'[i] == subs[i])
            && |fs'| == |fs|
            && (forall k :: 0 <= k < |fs| ==> fs'[k] == fs[k].(sub := fs'[k].sub))
    decreases |fs|
  {
    if fs != [] {
      var (subs1, f1) := LinkOne(subs, fs[0]);
      LinkFrame(subs1, fs[1..]);
    }
  }

  // ----- exposed sub-devices and marked forwards correspond one to one -----

  predicate DistinctMarks(fs: seq<Forward>) {
    forall k, l :: 0 <= k < l < |fs| && fs[k].sub != "" ==> fs[k].sub != fs[l].sub
  }

  /** The marks carried by forwards, each with the port its forward listens on. */
  function Marks(fs: seq<Forward>): map<string, int>
    requires DistinctMarks(fs)
  {
    map k | 0 <= k < |fs| && fs[k].sub != "" :: fs[k].sub := fs[k].listen
  }

  /** The names of the exposed sub-devices, each with the port it is exposed on. */
  function Exposures(subs: seq<SubDevice>): map<string, int>
    requires DistinctNames(subs)
  {
    map j | 0 <= j < |subs| && subs[j].expose :: subs[j].name := subs[j].listen
  }

  /** The two representations agree: since names and marks are distinct, this map equality is a
      one-to-one correspondence between marked forwards and exposed sub-devices, with equal ports. */
  predicate InStep(subs: seq<SubDevice>, fs: seq<Forward>) {
    DistinctNames(subs) && DistinctMarks(fs) && Marks(fs) == Exposures(subs)
  }

  /** A turn either leaves the forward free or gives it the name of a sub-device not yet exposed. */
  lemma LinkOneCases(subs: seq<SubDevice>, f: Forward) returns (j: int)
    ensures -1 <= j < |subs|
    ensures j == -1 ==> LinkOne(subs, f) == (subs, f.(sub := ""))
    ensures j >= 0 ==>
      !subs[j].expose && LinkOne(subs, f) == (Exposed(subs, j, f.listen), f.(sub := subs[j].name))
  {
    if f.sub != "" {
      j := LastNamed(subs, f.sub);
      if j >= 0 && subs[j].expose { j := -1; }
    } else {
      j := if IsTcp(f) then FirstClaim(subs, f.target, 0) else -1;
    }
  }

  lemma ExposeOne(subs: seq<SubDevice>, j: nat, listen: int)
    requires DistinctNames(subs) && j < |subs|
    ensures DistinctNames(Exposed(subs, j, listen))
    ensures Exposures(Exposed(subs, j, listen)) == Exposures(subs)[subs[j].name := listen]
  {
    var subs1 := Exposed(subs, j, listen);
    assert subs1[j].name == subs[j].name && subs1[j].expose;
    forall i | 0 <= i < |subs| && i != j ensures subs1[i] == subs[i] {}
  }

  lemma MarkOne(fs: seq<Forward>, f: Forward)
    requires DistinctMarks(fs) && (f.sub != "" ==> f.sub !in Marks(fs))
    ensures DistinctMarks(fs + [f])
    ensures Marks(fs + [f]) == if f.sub == "" then Marks(fs) else Marks(fs)[f.sub := f.listen]
  {
    var gs := fs + [f];
    assert gs[|fs|] == f;
    forall k, l | 0 <= k < l < |gs| && gs[k].sub != "" ensures gs[k].sub != gs[l].sub {
      if l == |fs| {
        assert fs[k].sub in Marks(fs);
      }
    }
    MarksOfMore(fs, f, gs);
  }

  lemma MarksOfMore(fs: seq<Forward>, f: Forward, gs: seq<Forward>)
    requires gs == fs + [f] && DistinctMarks(fs) && DistinctMarks(gs)
    ensures Marks(gs) == if f.sub == "" then Marks(fs) else Marks(fs)[f.sub := f.listen]
  {
    assert gs[|fs|] == f;
    forall k | 0 <= k < |fs| ensures gs[k] == fs[k] {}
  }

  lemma {:induction false} LinkKeepsStep(subs: seq<SubDevice>, done: seq<Forward>, fs: seq<Forward>)
    requires InStep(subs, done)
    ensures InStep(Link(subs, fs).0, done + Link(subs, fs).1)
    decreases |fs|
  {
    if fs == [] {
      assert done + [] == done;
    } else {
      var (subs1, f1) := LinkOne(subs, fs[0]);
      var j := LinkOneCases(subs, fs[0]);
      if j >= 0 {
        assert subs[j].name !in Exposures(subs);
        ExposeOne(subs, j, fs[0].listen);
      }
      MarkOne(done, f1);
      LinkKeepsStep(subs1, done + [f1], fs[1..]);
      assert done + [f1] + Link(subs1, fs[1..]).1 == done + ([f1] + Link(subs1, fs[1..]).1);
    }
  }

  // ----- normalize -----

  function Merged(c: Config): Config {
    if c.processor.Some? && c.processor.value.ip != "" && c.subDevices == [] then
      var p := c.processor.value;
      var name := if p.name == "" then "Processeur" else p.name;
      c.(subDevices := [SubDevice(name, p.ip, p.port, false, 0, [])])
    else c
  }

  /** Sub-device `i` with its default name and its exposure withdrawn. */
  function Cleared(sd: SubDevice, i: nat): SubDevice {
    var name := if sd.name == "" then "sous-appareil " + Decimal(i + 1) else sd.name;
    sd.(name := name, expose := false, listen := 0)
  }

  function ClearedAll(subs: seq<SubDevice>): seq<SubDevice> {
    seq(|subs|, i requires 0 <= i < |subs| => Cleared(subs[i], i))
  }

  /** The sub-devices that a configuration starts every linking pass from. */
  function Base(c: Config): seq<SubDevice> {
    ClearedAll(Merged(c).subDevices)
  }

  lemma BaseIsNamed(c: Config)
    ensures Named(Base(c))
  {
  }

  function WithLinks(c: Config, r: (seq<SubDevice>, seq<Forward>)): Config {
    c.(subDevices := r.0, forwards := r.1, processor := None)
  }

  function Normalized(c: Config): Config {
    WithLinks(c, Link(Base(c), c.forwards))
  }

  /** `normalize` changes nothing in `forwards` but the marks, and leaves the marks and the exposures
      in one-to-one correspondence; a sub-device that no forward marks listens nowhere. */
  lemma LinkBijection(c: Config)
    requires DistinctNames(Base(c))
    ensures var n := Normalized(c);
            && InStep(n.subDevices, n.forwards)
            && SameDevices(n.subDevices, Base(c))
            && (forall j :: 0 <= j < |n.subDevices| && !n.subDevices[j].expose ==> n.subDevices[j].listen == 0)
            && |n.forwards| == |c.forwards|
            && (forall k :: 0 <= k < |c.forwards| ==>
                  n.forwards[k] == c.forwards[k].(sub := n.forwards[k].sub))
  {
    var subs := Base(c);
    LinkKeepsStep(subs, [], c.forwards);
    assert [] + Link(subs, c.forwards).1 == Link(subs, c.forwards).1;
    LinkFrame(subs, c.forwards);
    LinkKeepsQuiet(subs, c.forwards);
  }

  lemma {:induction false} LinkKeepsQuiet(subs: seq<SubDevice>, fs: seq<Forward>)
    requires forall j :: 0 <= j < |subs| && !subs[j].expose ==> subs[j].listen == 0
    ensures var subs' := Link(subs, fs).0;
            forall j :: 0 <= j < |subs'| && !subs'[j].expose ==> subs'[j].listen == 0
    decreases |fs|
  {
    if fs != [] {
      var (subs1, f1) := LinkOne(subs, fs[0]);
      var j := LinkOneCases(subs, fs[0]);
      LinkKeepsQuiet(subs1, fs[1..]);
      assert Link(subs, fs).0 == Link(subs1, fs[1..]).0;
    }
  }
}
