/** Which forward a sub-device is exposed by (hub/dashboard/models.go:91-123), said of the forwards as they are
    given: when no two sub-devices share a name or an address and port, the first forward that wants a sub-device
    has it, and every other forward is free. */
module Linking {
  import opened Common
  import opened Links
  import Ports

  /** The forward belongs to the sub-device: by its mark, or, without one, by tcp to its address and port. */
  predicate Wants(f: Forward, sd: SubDevice) {
    if f.sub != "" then f.sub == sd.name
    else (f.proto == "" || f.proto == "tcp") && sd.ip != "" && f.target == sd.ip + ":" + Decimal(sd.port)
  }

  /** No earlier forward wants it. */
  predicate FirstWanting(fs: seq<Forward>, k: int, sd: SubDevice) {
    0 <= k < |fs| && Wants(fs[k], sd) && forall l :: 0 <= l < k ==> !Wants(fs[l], sd)
  }

  ghost predicate Wanted(fs: seq<Forward>, sd: SubDevice) {
    exists k :: 0 <= k < |fs| && Wants(fs[k], sd)
  }

  /** No two sub-devices share a name, or an address and port. */
  predicate Distinct(subs: seq<SubDevice>) {
    forall i, j :: 0 <= i < j < |subs| ==>
      && subs[i].name != subs[j].name
      && (subs[i].ip != "" && subs[i].ip == subs[j].ip ==> subs[i].port != subs[j].port)
  }

  lemma OneIsWanted(subs: seq<SubDevice>, f: Forward, i: nat, j: nat)
    requires Distinct(subs) && i < |subs| && j < |subs| && Wants(f, subs[i]) && Wants(f, subs[j])
    ensures i == j
  {
    Ports.TargetIff(subs[i], subs[j]);
  }

  /** One forward takes the sub-device that it wants, if it is free. */
  lemma TurnWins(subs: seq<SubDevice>, f: Forward, j: nat)
    requires Distinct(subs) && j < |subs|
    ensures var (subs', f') := LinkOne(subs, f);
            if Wants(f, subs[j]) && !subs[j].expose then
              subs'[j] == subs[j].(expose := true, listen := f.listen) && f'.sub == subs[j].name
            else subs'[j] == subs[j]
  {
    if Wants(f, subs[j]) && f.sub != "" {
      LastNamedAt(subs, j);
    } else if Wants(f, subs[j]) && !subs[j].expose {
      FirstClaimAt(subs, f.target, j);
      OneIsWanted(subs, f, FirstClaim(subs, f.target, 0), j);
    } else {
      var i := LinkOneCases(subs, f);
      assert i >= 0 ==> Wants(f, subs[i]);
    }
  }

  lemma TurnLoses(subs: seq<SubDevice>, f: Forward)
    requires LinkOne(subs, f).1.sub != ""
    ensures exists j :: 0 <= j < |subs| && !subs[j].expose && Wants(f, subs[j])
  {
    var j := if f.sub != "" then LastNamed(subs, f.sub) else FirstClaim(subs, f.target, 0);
    assert Wants(f, subs[j]);
  }

  lemma TurnKeepsDistinct(subs: seq<SubDevice>, f: Forward)
    requires Distinct(subs)
    ensures Distinct(LinkOne(subs, f).0) && SameDevices(LinkOne(subs, f).0, subs)
  {
  }

  lemma FirstOfMore(f: Forward, fs: seq<Forward>, k: int, sd: SubDevice)
    ensures FirstWanting([f] + fs, k, sd) <==>
            if k == 0 then Wants(f, sd) else !Wants(f, sd) && FirstWanting(fs, k - 1, sd)
    ensures Wanted([f] + fs, sd) <==> Wants(f, sd) || Wanted(fs, sd)
  {
    var gs := [f] + fs;
    assert forall l :: 0 < l < |gs| ==> gs[l] == fs[l - 1];
    assert forall l :: 0 <= l < |fs| ==> gs[l + 1] == fs[l];
    if Wanted(fs, sd) {
      var l :| 0 <= l < |fs| && Wants(fs[l], sd);
      assert Wants(gs[l + 1], sd);
    }
    if Wants(f, sd) {
      assert Wants(gs[0], sd);
    }
  }

  lemma {:induction false} SubWins(subs: seq<SubDevice>, fs: seq<Forward>, j: nat, k: int)
    requires Distinct(subs) && j < |subs|
    ensures |Link(subs, fs).0| == |subs|
    ensures var (subs', fs') := Link(subs, fs);
            if subs[j].expose then subs'[j] == subs[j]
            else
              && (subs'[j].expose <==> Wanted(fs, subs[j]))
              && (FirstWanting(fs, k, subs[j]) ==> subs'[j].listen == fs[k].listen && fs'[k].sub == subs[j].name)
    decreases |fs|
  {
    LinkFrame(subs, fs);
    if fs != [] {
      var (subs1, f1) := LinkOne(subs, fs[0]);
      TurnKeepsDistinct(subs, fs[0]);
      TurnWins(subs, fs[0], j);
      FirstOfMore(fs[0], fs[1..], k, subs[j]);
      assert [fs[0]] + fs[1..] == fs;
      SubWins(subs1, fs[1..], j, k - 1);
      assert Wants(fs[0], subs[j]) || subs1[j] == subs[j];
    }
  }

  lemma {:induction false} MarkLoses(subs: seq<SubDevice>, fs: seq<Forward>, k: nat)
    requires Distinct(subs) && k < |fs|
    requires forall j :: 0 <= j < |subs| && !subs[j].expose ==> !FirstWanting(fs, k, subs[j])
    ensures Link(subs, fs).1[k].sub == ""
    decreases |fs|
  {
    var (subs1, f1) := LinkOne(subs, fs[0]);
    if k == 0 {
      if f1.sub != "" {
        TurnLoses(subs, fs[0]);
      }
    } else {
      TurnKeepsDistinct(subs, fs[0]);
      forall j | 0 <= j < |subs1| && !subs1[j].expose ensures !FirstWanting(fs[1..], k - 1, subs1[j]) {
        TurnWins(subs, fs[0], j);
        FirstOfMore(fs[0], fs[1..], k, subs[j]);
        assert [fs[0]] + fs[1..] == fs;
      }
      MarkLoses(subs1, fs[1..], k - 1);
    }
  }

  lemma SameWants(fs: seq<Forward>, k: int, a: SubDevice, b: SubDevice)
    requires a.name == b.name && a.ip == b.ip && a.port == b.port
    ensures FirstWanting(fs, k, a) <==> FirstWanting(fs, k, b)
    ensures Wanted(fs, a) <==> Wanted(fs, b)
  {
    assert forall l :: 0 <= l < |fs| ==> (Wants(fs[l], a) <==> Wants(fs[l], b));
  }

  /** After a load a sub-device is exposed exactly when one of the given forwards wants it. */
  lemma ExposedIff(c: Config, j: nat)
    requires Distinct(Normalized(c).subDevices) && j < |Normalized(c).subDevices|
    ensures var sd := Normalized(c).subDevices[j];
            sd.expose <==> exists k :: 0 <= k < |c.forwards| && Wants(c.forwards[k], sd)
  {
    LinkFrame(Base(c), c.forwards);
    SubWins(Base(c), c.forwards, j, 0);
    SameWants(c.forwards, 0, Base(c)[j], Normalized(c).subDevices[j]);
    assert Wanted(c.forwards, Normalized(c).subDevices[j]) || !Wanted(c.forwards, Normalized(c).subDevices[j]);
  }

  /** The first one that does carries its name and gives it its port. */
  lemma FirstWins(c: Config, j: nat, k: nat)
    requires Distinct(Normalized(c).subDevices) && j < |Normalized(c).subDevices|
    requires FirstWanting(c.forwards, k, Normalized(c).subDevices[j])
    ensures var n := Normalized(c);
            |n.forwards| == |c.forwards| &&
            n.forwards[k].sub == n.subDevices[j].name && n.subDevices[j].listen == c.forwards[k].listen
  {
    LinkFrame(Base(c), c.forwards);
    SubWins(Base(c), c.forwards, j, k);
    SameWants(c.forwards, k, Base(c)[j], Normalized(c).subDevices[j]);
  }

  /** A forward that is the first for no sub-device is free. */
  lemma OthersAreFree(c: Config, k: nat)
    requires Distinct(Normalized(c).subDevices) && k < |c.forwards|
    requires forall sd :: sd in Normalized(c).subDevices ==> !FirstWanting(c.forwards, k, sd)
    ensures |Normalized(c).forwards| == |c.forwards| && Normalized(c).forwards[k].sub == ""
  {
    var subs, n := Base(c), Normalized(c);
    LinkFrame(subs, c.forwards);
    forall j | 0 <= j < |subs| ensures !FirstWanting(c.forwards, k, subs[j]) {
      SameWants(c.forwards, k, subs[j], n.subDevices[j]);
      assert n.subDevices[j] in n.subDevices;
    }
    MarkLoses(subs, c.forwards, k);
  }
}
