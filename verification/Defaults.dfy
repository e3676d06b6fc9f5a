/** What loading and saving fill in of a configuration, and what they leave as it was given
    (hub/dashboard/models.go:65-89, hub/dashboard/agentapi.go:55-62, hub/dashboard/portal.go:576-611). */
module Defaults {
  import opened Common
  import opened Links
  import opened Decimals
  import Access
  import Convergence
  import Replica
  import Saving
  import Submitted
  import Worst

  /** The given name, or `otherwise` when none was given. */
  predicate NamedAs(name: string, given: string, otherwise: string) {
    if given != "" then name == given else name == otherwise
  }

  /** The name that sub-device `i` gets when it was given none. */
  ghost predicate DefaultName(name: string, i: nat) {
    exists digits :: name == "sous-appareil " + digits && AllDigits(digits) && Read(digits) == i + 1
  }

  ghost predicate NamedSub(name: string, given: string, i: nat) {
    if given != "" then name == given else DefaultName(name, i)
  }

  lemma DefaultNamesDiffer(name: string, i: nat, j: nat)
    requires DefaultName(name, i) && DefaultName(name, j)
    ensures i == j
  {
    var x :| name == "sous-appareil " + x && AllDigits(x) && Read(x) == i + 1;
    var y :| name == "sous-appareil " + y && AllDigits(y) && Read(y) == j + 1;
    var n := |"sous-appareil "|;
    assert name[n..] == x && name[n..] == y;
  }

  // ----- loading -----

  /** The sub-devices are those that were given, in order, each under its name or a default one. */
  ghost predicate AsGiven(subs: seq<SubDevice>, given: seq<SubDevice>) {
    && |subs| == |given|
    && forall i :: 0 <= i < |given| ==>
         && NamedSub(subs[i].name, given[i].name, i)
         && subs[i].ip == given[i].ip && subs[i].port == given[i].port && subs[i].readings == given[i].readings
  }

  /** The old processor, as a sub-device of its own. */
  predicate AsProcessor(sd: SubDevice, p: SubDevice) {
    NamedAs(sd.name, p.name, "Processeur") && sd.ip == p.ip && sd.port == p.port && sd.readings == []
  }

  lemma ClearedIsAsGiven(subs: seq<SubDevice>)
    ensures AsGiven(ClearedAll(subs), subs)
  {
    forall i | 0 <= i < |subs| ensures NamedSub(Cleared(subs[i], i).name, subs[i].name, i) {
      DigitsRead(i + 1);
      assert Cleared(subs[i], i).name == subs[i].name || subs[i].name == "";
    }
  }

  /** A load keeps the sub-devices, or makes the old processor the only one when there is none and it has an
      address; no processor is left, and settings and forwards are those that were given, marks aside. */
  lemma LoadKeeps(c: Config)
    ensures var n := Normalized(c);
            && n.name == c.name && n.heartbeatSeconds == c.heartbeatSeconds && n.update == c.update
            && n.processor == None
            && |n.forwards| == |c.forwards|
            && (forall k :: 0 <= k < |c.forwards| ==> n.forwards[k] == c.forwards[k].(sub := n.forwards[k].sub))
    ensures c.subDevices != [] ==> AsGiven(Normalized(c).subDevices, c.subDevices)
    ensures c.subDevices == [] ==>
              match c.processor
              case Some(p) =>
                if p.ip == "" then Normalized(c).subDevices == []
                else |Normalized(c).subDevices| == 1 && AsProcessor(Normalized(c).subDevices[0], p)
              case None => Normalized(c).subDevices == []
  {
    LinkFrame(Base(c), c.forwards);
    ClearedIsAsGiven(Merged(c).subDevices);
  }

  /** What the hub stores of the configuration that an agent proposes: its sub-devices and forwards, loaded, under
      the name of the device, a heartbeat every fifteen seconds and updates every hour. */
  lemma ProposalIsKept(name: string, local: Config)
    ensures var n, s := Normalized(local), Worst.Proposed(name, local);
            && s.name == name && s.heartbeatSeconds == 15 && s.update.enabled && s.update.checkHours == 1
            && s.processor == None
            && SameDevices(s.subDevices, n.subDevices)
            && |s.forwards| == |local.forwards|
            && (forall k :: 0 <= k < |local.forwards| ==>
                  s.forwards[k] == local.forwards[k].(sub := s.forwards[k].sub))
  {
    var n := Normalized(local);
    var c := Config(name, 15, n.subDevices, n.forwards, Update(true, 1), None);
    LinkFrame(Base(local), local.forwards);
    LinkFrame(Base(c), c.forwards);
  }

  /** What an agent is sent of a stored configuration: the settings, the sub-devices, the first of them once more
      as the old processor, and the forwards, marks aside. */
  lemma SentKeeps(stored: Config)
    ensures var s := Replica.Sent(stored);
            && s.name == stored.name && s.heartbeatSeconds == stored.heartbeatSeconds && s.update == stored.update
            && (stored.subDevices != [] ==> AsGiven(s.subDevices, stored.subDevices))
            && s.processor == (if s.subDevices == [] then None else Some(s.subDevices[0]))
            && |s.forwards| == |stored.forwards|
            && (forall k :: 0 <= k < |stored.forwards| ==>
                  s.forwards[k] == stored.forwards[k].(sub := s.forwards[k].sub))
  {
    var once := Convergence.NormalizedTimes(stored, 1);
    assert once == Normalized(stored) && Convergence.NormalizedTimes(stored, 2) == Normalized(once);
    LoadKeeps(stored);
    LoadKeeps(once);
    if stored.subDevices != [] {
      var subs := Normalized(once).subDevices;
      forall i | 0 <= i < |subs|
        ensures NamedSub(subs[i].name, stored.subDevices[i].name, i)
      {
        assert NamedSub(once.subDevices[i].name, stored.subDevices[i].name, i);
        assert once.subDevices[i].name != "" && NamedSub(subs[i].name, once.subDevices[i].name, i);
      }
    }
  }

  // ----- saving -----

  /** The stored sub-device is the loaded one with its address trimmed; it is exposed as it was, if it has an
      address, on the port asked for or its own, and one that is not exposed listens nowhere. */
  ghost predicate SavedAs(sd: SubDevice, was: SubDevice) {
    && sd.name == was.name && sd.port == was.port && sd.readings == was.readings
    && (exists i: nat, j: nat :: Submitted.Inner(was.ip, i, j) && sd.ip == was.ip[i..j])
    && (sd.expose <==> was.expose && sd.ip != "")
    && sd.listen == (if !sd.expose then 0 else if was.listen == 0 then was.port else was.listen)
  }

  /** An accepted configuration is stored with the sub-devices it has when it is loaded and the settings that
      were given; a missing name becomes the slug, too short a heartbeat fifteen seconds, no hours one. */
  lemma SaveKeeps(raw: Config, slug: string, isIP: string -> bool)
    requires Saving.Accepted(raw, slug, isIP)
    ensures var n, s := Normalized(raw), Saving.Stored(raw, slug);
            && |s.subDevices| == |n.subDevices|
            && (forall i :: 0 <= i < |n.subDevices| ==> SavedAs(s.subDevices[i], n.subDevices[i]))
            && NamedAs(s.name, raw.name, slug)
            && s.heartbeatSeconds == (if raw.heartbeatSeconds >= 5 then raw.heartbeatSeconds else 15)
            && s.update.enabled == raw.update.enabled
            && s.update.checkHours == (if raw.update.checkHours > 0 then raw.update.checkHours else 1)
            && s.processor == None
  {
    hide Normalized;
    var n, s := Normalized(raw), Saving.Stored(raw, slug);
    LoadKeeps(raw);
    forall i | 0 <= i < |n.subDevices| ensures SavedAs(s.subDevices[i], n.subDevices[i]) {
      assert Saving.CheckSub(n.subDevices, i, isIP) == None;
      var a, b := Submitted.TrimIs(n.subDevices[i].ip);
      assert s.subDevices[i] == Access.BuiltSub(Saving.Trimmed(n.subDevices[i]));
    }
  }
}
