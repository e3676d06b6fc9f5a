/** The configuration object that the portal and the agent API update in place (hub/dashboard/models.go:29-160). */
module DeviceConfigs {
  import opened Common
  import opened Links
  import Access
  import Slugs

  class DeviceConfig {
    var name: string
    var heartbeatSeconds: int
    var subDevices: seq<SubDevice>
    var forwards: seq<Forward>
    var update: Update
    var processor: Option<SubDevice>

    function Value(): Config
      reads this
    {
      Config(name, heartbeatSeconds, subDevices, forwards, update, processor)
    }

    constructor (c: Config)
      ensures Value() == c
    {
      name, heartbeatSeconds, subDevices := c.name, c.heartbeatSeconds, c.subDevices;
      forwards, update, processor := c.forwards, c.update, c.processor;
    }

    method Normalize()
      modifies this
      ensures Value() == Normalized(old(Value()))
    {
      if processor.Some? && processor.value.ip != "" && subDevices == [] {
        var given := if processor.value.name == "" then "Processeur" else processor.value.name;
        subDevices := [SubDevice(given, processor.value.ip, processor.value.port, false, 0, [])];
      }
      processor := None;
      ghost var merged := subDevices;
      for i := 0 to |subDevices|
        invariant |subDevices| == |merged|
        invariant forall k :: 0 <= k < i ==> subDevices[k] == Cleared(merged[k], k)
        invariant forall k :: i <= k < |merged| ==> subDevices[k] == merged[k]
        invariant Value() == old(Value()).(subDevices := subDevices, processor := None)
      {
        if subDevices[i].name == "" {
          subDevices := subDevices[i := subDevices[i].(name := "sous-appareil " + Decimal(i + 1))];
        }
        subDevices := subDevices[i := subDevices[i].(expose := false, listen := 0)];
      }
      assert subDevices == Base(old(Value()));
      LinkForwards();
    }

    /** `byName` is the last index of every name. */
    static ghost predicate Indexes(byName: map<string, nat>, subs: seq<SubDevice>) {
      && (forall name :: name in byName <==> LastNamed(subs, name) >= 0)
      && (forall name :: name in byName ==> byName[name] == LastNamed(subs, name))
    }

    method IndexNames() returns (byName: map<string, nat>)
      ensures Indexes(byName, subDevices)
    {
      byName := map[];
      for i := 0 to |subDevices|
        invariant Indexes(byName, subDevices[..i])
      {
        assert subDevices[..i + 1][..i] == subDevices[..i];
        byName := byName[subDevices[i].name := i];
      }
      assert subDevices[..|subDevices|] == subDevices;
    }

    method LinkForwards()
      modifies this`subDevices, this`forwards
      ensures (subDevices, forwards) == Link(old(subDevices), old(forwards))
    {
      ghost var subs0, fs0 := subDevices, forwards;
      var byName := IndexNames();
      for i := 0 to |forwards|
        invariant |forwards| == |fs0| && forwards[i..] == fs0[i..]
        invariant subDevices == Link(subs0, fs0[..i]).0
        invariant forwards[..i] == Link(subs0, fs0[..i]).1
      {
        ghost var before := forwards;
        assert forwards[i] == fs0[i..][0] == fs0[i];
        assert Indexes(byName, subDevices) by {
          LinkFrame(subs0, fs0[..i]);
          forall name ensures LastNamed(subDevices, name) == LastNamed(subs0, name) {
            SameNamed(subDevices, subs0, name);
          }
        }
        LinkTurn(i, byName);
        LinkLast(subs0, fs0[..i], fs0[i]);
        assert fs0[..i + 1] == fs0[..i] + [fs0[i]];
        assert forwards[..i + 1] == before[..i] + [forwards[i]];
      }
      assert forwards[..|forwards|] == forwards && fs0[..|fs0|] == fs0;
    }

    /** The body of the loop over the forwards. */
    method LinkTurn(i: nat, byName: map<string, nat>)
      requires i < |forwards| && Indexes(byName, subDevices)
      modifies this`subDevices, this`forwards
      ensures subDevices == LinkOne(old(subDevices), old(forwards[i])).0
      ensures forwards == old(forwards)[i := LinkOne(old(subDevices), old(forwards[i])).1]
    {
      var f := forwards[i];
      if f.sub != "" {
        if f.sub in byName && !subDevices[byName[f.sub]].expose {
          Expose(byName[f.sub], f.listen);
        } else {
          forwards := forwards[i := f.(sub := "")];
        }
      } else if f.proto == "" || f.proto == "tcp" {
        var j := FindClaim(f.target);
        if j < |subDevices| {
          forwards := forwards[i := f.(sub := subDevices[j].name)];
          Expose(j, f.listen);
        }
      }
    }

    method Expose(i: nat, port: int)
      requires i < |subDevices|
      modifies this`subDevices
      ensures subDevices == Exposed(old(subDevices), i, port)
    {
      subDevices := subDevices[i := subDevices[i].(expose := true, listen := port)];
    }

    /** The inner search: the first sub-device not yet exposed whose address is `target`. */
    method FindClaim(target: string) returns (j: nat)
      ensures j <= |subDevices|
      ensures FirstClaim(subDevices, target, 0) == if j < |subDevices| then j else -1
    {
      FirstClaimIs(subDevices, target, 0);
      j := 0;
      while j < |subDevices|
        invariant j <= |subDevices|
        invariant forall k :: 0 <= k < j ==> !Claims(subDevices[k], target)
      {
        var sd := subDevices[j];
        if !sd.expose && sd.ip != "" && target == sd.ip + ":" + Decimal(sd.port) {
          return;
        }
        j := j + 1;
      }
    }

    method BuildForwards()
      modifies this`subDevices, this`forwards
      ensures Value() == Access.Built(old(Value()))
    {
      ghost var subs0, fs0 := subDevices, forwards;
      var out: seq<Forward> := [];
      for i := 0 to |subDevices|
        invariant |subDevices| == |subs0| && forwards == fs0
        invariant forall k :: 0 <= k < i ==> subDevices[k] == Access.BuiltSub(subs0[k])
        invariant forall k :: i <= k < |subs0| ==> subDevices[k] == subs0[k]
        invariant out == Access.Accesses(subs0, i)
      {
        var sd := subDevices[i];
        if !sd.expose || sd.ip == "" || sd.port <= 0 {
          subDevices := subDevices[i := sd.(expose := false, listen := 0)];
        } else {
          if sd.listen <= 0 {
            sd := sd.(listen := sd.port);
            subDevices := subDevices[i := sd];
          }
          var given := Slugs.Slugify(sd.name);
          if given == "" {
            given := "acces-" + Decimal(i + 1);
          }
          out := out + [Forward(given, "tcp", sd.listen, sd.ip + ":" + Decimal(sd.port), sd.name)];
        }
      }
      ghost var accesses := out;
      for i := 0 to |forwards|
        invariant forwards == fs0 && out == accesses + Access.FreeOf(fs0[..i])
      {
        assert fs0[..i + 1][..i] == fs0[..i];
        if forwards[i].sub == "" {
          out := out + [forwards[i]];
        }
      }
      assert fs0[..|fs0|] == fs0;
      forwards := out;
    }

    /** The copy sent to agents, with the first sub-device repeated for old versions. */
    method ForAgent() returns (r: Config)
      ensures var n := Normalized(Value());
              r == n.(processor := if n.subDevices == [] then None else Some(n.subDevices[0]))
    {
      var c := new DeviceConfig(Value());
      c.Normalize();
      if |c.subDevices| > 0 {
        c.processor := Some(c.subDevices[0]);
      }
      r := c.Value();
    }
  }
}
