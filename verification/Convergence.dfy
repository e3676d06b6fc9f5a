/** Repeated normalization (hub/dashboard/models.go:66-123).

    Every load of a device row normalizes the stored configuration again. One pass is not idempotent:
    a forward whose mark is dropped is offered to the other sub-devices only on the next pass. */
module Convergence {
  import opened Links

  /** The forwards after `t` passes, each pass starting from the same sub-devices. */
  function Passes(subs: seq<SubDevice>, fs: seq<Forward>, t: nat): (r: seq<Forward>)
    ensures |r| == |fs|
    decreases t
  {
    if t == 0 then fs else Passes(subs, Link(subs, fs).1, t - 1)
  }

  function NormalizedTimes(c: Config, t: nat): Config
    decreases t
  {
    if t == 0 then c else NormalizedTimes(Normalized(c), t - 1)
  }

  // ----- names that lead to their sub-device -----

  /** The name of sub-device `i` leads to it: a mark with that name is honoured there. */
  predicate Leads(subs: seq<SubDevice>, i: nat)
    requires i < |subs|
  {
    LastNamed(subs, subs[i].name) == i
  }

  /** Every sub-device that a target can designate is the last of its name. */
  predicate NamesLead(subs: seq<SubDevice>) {
    Named(subs) && forall i :: 0 <= i < |subs| && subs[i].ip != "" ==> Leads(subs, i)
  }

  lemma DistinctNamesLead(subs: seq<SubDevice>)
    requires DistinctNames(subs)
    ensures NamesLead(subs)
  {
    forall i | 0 <= i < |subs| ensures Leads(subs, i) {
      LastNamedAt(subs, i);
    }
  }

  lemma TurnFrame(subs: seq<SubDevice>, f: Forward)
    ensures SameDevices(LinkOne(subs, f).0, subs)
  {
  }

  lemma SameLead(subs: seq<SubDevice>, subs1: seq<SubDevice>)
    requires SameDevices(subs1, subs) && NamesLead(subs)
    ensures NamesLead(subs1)
  {
    forall i | 0 <= i < |subs1| && subs1[i].ip != "" ensures Leads(subs1, i) {
      SameNamed(subs1, subs, subs[i].name);
      assert Leads(subs, i);
    }
  }

  lemma TurnKeepsLead(subs: seq<SubDevice>, f: Forward)
    requires NamesLead(subs)
    ensures NamesLead(LinkOne(subs, f).0)
  {
    TurnFrame(subs, f);
    SameLead(subs, LinkOne(subs, f).0);
  }

  // ----- a turn that does not drop a mark is settled for good -----

  lemma TurnSettles(subs: seq<SubDevice>, f: Forward)
    requires NamesLead(subs)
    requires f.sub == "" || LinkOne(subs, f).1.sub != ""
    ensures LinkOne(subs, LinkOne(subs, f).1) == LinkOne(subs, f)
  {
    var f1 := LinkOne(subs, f).1;
    if f.sub == "" && f1.sub != "" {
      assert Leads(subs, FirstClaim(subs, f.target, 0));
    }
  }

  /** A settled head stays in place; the passes go on behind it. */
  lemma {:induction false} PassesBehind(subs: seq<SubDevice>, f: Forward, fs: seq<Forward>, t: nat)
    requires LinkOne(subs, f).1 == f
    ensures Passes(subs, [f] + fs, t) == [f] + Passes(LinkOne(subs, f).0, fs, t)
    decreases t
  {
    if t > 0 {
      var subs1 := LinkOne(subs, f).0;
      assert ([f] + fs)[1..] == fs;
      assert Link(subs, [f] + fs).1 == [f] + Link(subs1, fs).1;
      PassesBehind(subs, f, Link(subs1, fs).1, t - 1);
    }
  }

  /** The first turn does not drop a mark: from the first pass on it only repeats itself. */
  lemma PassesAfterSettled(subs: seq<SubDevice>, fs: seq<Forward>, t: nat)
    requires NamesLead(subs) && fs != [] && t > 0
    requires fs[0].sub == "" || LinkOne(subs, fs[0]).1.sub != ""
    ensures var (subs1, f1) := LinkOne(subs, fs[0]);
            && LinkOne(subs, f1) == (subs1, f1)
            && Passes(subs, fs, t) == [f1] + Passes(subs1, fs[1..], t)
  {
    var (subs1, f1) := LinkOne(subs, fs[0]);
    TurnSettles(subs, fs[0]);
    PassesBehind(subs, f1, Link(subs1, fs[1..]).1, t - 1);
    assert Link(subs, fs).1 == [f1] + Link(subs1, fs[1..]).1;
  }

  lemma LinkCons(subs: seq<SubDevice>, f: Forward, fs: seq<Forward>)
    ensures var (subs1, f1) := LinkOne(subs, f);
            Link(subs, [f] + fs) == (Link(subs1, fs).0, [f1] + Link(subs1, fs).1)
  {
    assert ([f] + fs)[1..] == fs;
  }

  /** The next pass and the one after it agree. */
  predicate Still(subs: seq<SubDevice>, fs: seq<Forward>) {
    Link(subs, Link(subs, fs).1) == Link(subs, fs)
  }

  lemma StillBehind(subs: seq<SubDevice>, f: Forward, fs: seq<Forward>)
    requires LinkOne(subs, LinkOne(subs, f).1) == LinkOne(subs, f) && Still(LinkOne(subs, f).0, fs)
    ensures Still(subs, [f] + fs)
  {
    var (subs1, f1) := LinkOne(subs, f);
    LinkCons(subs, f, fs);
    LinkCons(subs, f1, Link(subs1, fs).1);
  }

  lemma {:induction false} PassesOfNone(subs: seq<SubDevice>, t: nat)
    ensures Passes(subs, [], t) == []
    decreases t
  {
    if t > 0 {
      PassesOfNone(subs, t - 1);
    }
  }

  /** The first turn drops no mark: the head is settled with the first pass. */
  lemma KeptSettles(subs: seq<SubDevice>, fs: seq<Forward>, t: nat)
    requires NamesLead(subs) && fs != [] && t > 0 && (fs[0].sub == "" || LinkOne(subs, fs[0]).1.sub != "")
    requires var subs1 := LinkOne(subs, fs[0]).0; Still(subs1, Passes(subs1, fs[1..], t))
    ensures Still(subs, Passes(subs, fs, t))
  {
    var (subs1, f1) := LinkOne(subs, fs[0]);
    PassesAfterSettled(subs, fs, t);
    StillBehind(subs, f1, Passes(subs1, fs[1..], t));
  }

  /** A forward that was freed is settled with the next pass. */
  lemma FreedSettles(subs: seq<SubDevice>, f: Forward, rest: seq<Forward>, t: nat)
    requires NamesLead(subs) && f.sub == ""
    requires var subs2 := LinkOne(subs, f).0; Still(subs2, Passes(subs2, rest, t))
    ensures Still(subs, Passes(subs, [f] + rest, t))
  {
    TurnSettles(subs, f);
    if t == 0 {
      StillBehind(subs, f, rest);
    } else {
      assert ([f] + rest)[1..] == rest;
      KeptSettles(subs, [f] + rest, t);
    }
  }

  lemma DroppedSettles(subs: seq<SubDevice>, fs: seq<Forward>, t: nat)
    requires NamesLead(subs) && fs != [] && t > 0 && fs[0].sub != "" && LinkOne(subs, fs[0]).1.sub == ""
    requires var subs2 := LinkOne(subs, fs[0].(sub := "")).0; Still(subs2, Passes(subs2, Link(subs, fs[1..]).1, t - 1))
    ensures Still(subs, Passes(subs, fs, t))
  {
    var freed, rest := fs[0].(sub := ""), Link(subs, fs[1..]).1;
    assert Link(subs, fs).1 == [freed] + rest;
    FreedSettles(subs, freed, rest, t - 1);
  }

  /** After as many passes as there are forwards, the pass after the next changes nothing more. */
  lemma {:induction false} Settle(subs: seq<SubDevice>, fs: seq<Forward>, t: nat)
    requires NamesLead(subs) && t >= |fs|
    ensures Still(subs, Passes(subs, fs, t))
    decreases |fs|, 1
  {
    if fs == [] {
      PassesOfNone(subs, t);
    } else if fs[0].sub == "" || LinkOne(subs, fs[0]).1.sub != "" {
      TurnKeepsLead(subs, fs[0]);
      Settle(LinkOne(subs, fs[0]).0, fs[1..], t);
      KeptSettles(subs, fs, t);
    } else {
      SettleDropped(subs, fs, t);
    }
  }

  lemma SettleDropped(subs: seq<SubDevice>, fs: seq<Forward>, t: nat)
    requires NamesLead(subs) && t >= |fs| > 0 && fs[0].sub != "" && LinkOne(subs, fs[0]).1.sub == ""
    ensures Still(subs, Passes(subs, fs, t))
    decreases |fs|, 0
  {
    var freed := fs[0].(sub := "");
    TurnKeepsLead(subs, freed);
    Settle(LinkOne(subs, freed).0, Link(subs, fs[1..]).1, t - 1);
    DroppedSettles(subs, fs, t);
  }

  // ----- the configuration as a whole -----

  lemma BaseOfNormalized(c: Config)
    ensures Base(Normalized(c)) == Base(c)
  {
    var n := Normalized(c);
    LinkFrame(Base(c), c.forwards);
    forall i | 0 <= i < |n.subDevices| ensures Cleared(n.subDevices[i], i) == Base(c)[i] {
      assert n.subDevices[i].name == Base(c)[i].name != "";
    }
  }

  lemma {:induction false} ForwardsAfter(c: Config, t: nat)
    ensures NormalizedTimes(c, t).forwards == Passes(Base(c), c.forwards, t)
    decreases t
  {
    if t > 0 {
      BaseOfNormalized(c);
      ForwardsAfter(Normalized(c), t - 1);
    }
  }

  lemma {:induction false} NormalizedOnceMore(c: Config, t: nat)
    ensures NormalizedTimes(c, t + 1) == Normalized(NormalizedTimes(c, t))
    decreases t
  {
    if t > 0 {
      NormalizedOnceMore(Normalized(c), t - 1);
    } else {
      assert NormalizedTimes(Normalized(c), 0) == Normalized(c);
    }
  }

  /** `n` is what linking `p` over the sub-devices of `c` gives. */
  predicate Linked(c: Config, n: Config, p: seq<Forward>) {
    n == WithLinks(c, Link(Base(c), p)) && Base(n) == Base(c)
  }

  lemma LinkedStillIsFixed(c: Config, n: Config, p: seq<Forward>)
    requires Linked(c, n, p) && Still(Base(c), p)
    ensures Normalized(n) == n
  {
  }

  lemma {:induction false} TimesAreLinked(c: Config, t: nat) returns (p: seq<Forward>)
    requires t > 0
    ensures Linked(c, NormalizedTimes(c, t), p) && p == Passes(Base(c), c.forwards, t - 1)
    decreases t
  {
    BaseOfNormalized(c);
    if t == 1 {
      p := c.forwards;
      assert NormalizedTimes(Normalized(c), 0) == Normalized(c);
    } else {
      p := TimesAreLinked(Normalized(c), t - 1);
    }
  }

  lemma TimesAreStill(c: Config, t: nat) returns (p: seq<Forward>)
    requires NamesLead(Base(c)) && t > |c.forwards|
    ensures Linked(c, NormalizedTimes(c, t), p) && Still(Base(c), p)
  {
    p := TimesAreLinked(c, t);
    Settle(Base(c), c.forwards, t - 1);
  }

  /** When names lead to their sub-devices, `|forwards| + 1` normalizations reach a configuration that every
      later load gives back unchanged. */
  lemma Converges(c: Config, t: nat)
    requires NamesLead(Base(c)) && t > |c.forwards|
    ensures Normalized(NormalizedTimes(c, t)) == NormalizedTimes(c, t)
  {
    var p := TimesAreStill(c, t);
    LinkedStillIsFixed(c, NormalizedTimes(c, t), p);
  }

  // ----- when one pass is enough -----

  /** The turn is undone by the next pass: a forward loses its mark while a sub-device that is still free
      claims its target, or it is linked to a sub-device that its name does not lead to. */
  predicate Unstable(subs: seq<SubDevice>, f: Forward) {
    && IsTcp(f)
    && var j := FirstClaim(subs, f.target, 0);
       j >= 0 && if f.sub == "" then !Leads(subs, j) else LinkOne(subs, f).1.sub == ""
  }

  predicate Relinks(subs: seq<SubDevice>, fs: seq<Forward>)
    decreases |fs|
  {
    fs != [] && (Unstable(subs, fs[0]) || Relinks(LinkOne(subs, fs[0]).0, fs[1..]))
  }

  lemma StableTurn(subs: seq<SubDevice>, f: Forward)
    requires Named(subs) && !Unstable(subs, f)
    ensures LinkOne(subs, LinkOne(subs, f).1) == LinkOne(subs, f)
  {
    var j := FirstClaim(subs, f.target, 0);
    if f.sub == "" && IsTcp(f) && j >= 0 {
      assert Leads(subs, j);
    }
  }

  /** A pass that leaves every forward as it is exposes no sub-device that its name does not lead to. */
  lemma {:induction false} HiddenStaysClosed(subs: seq<SubDevice>, fs: seq<Forward>, j: nat)
    requires Named(subs) && j < |subs| && !subs[j].expose && !Leads(subs, j)
    requires Link(subs, fs).1 == fs
    ensures j < |Link(subs, fs).0| && !Link(subs, fs).0[j].expose
    decreases |fs|
  {
    if fs != [] {
      var subs1 := LinkOne(subs, fs[0]).0;
      TurnFrame(subs, fs[0]);
      SameNamed(subs1, subs, subs[j].name);
      assert Link(subs, fs).1[0] == LinkOne(subs, fs[0]).1;
      assert Link(subs, fs).1[1..] == Link(subs1, fs[1..]).1;
      HiddenStaysClosed(subs1, fs[1..], j);
    }
  }

  /** After an unstable turn the next pass gives another result, whatever follows. */
  lemma UnstableTurnShows(subs: seq<SubDevice>, f: Forward, rest: seq<Forward>, after: seq<SubDevice>)
    requires Named(subs) && Unstable(subs, f)
    requires SameDevices(after, subs) && forall i :: 0 <= i < |subs| && LinkOne(subs, f).0[i].expose ==> after[i].expose
    ensures Link(subs, [LinkOne(subs, f).1] + rest) != (after, [LinkOne(subs, f).1] + rest)
  {
    var f1, j := LinkOne(subs, f).1, FirstClaim(subs, f.target, 0);
    var again := LinkOne(subs, f1);
    LinkCons(subs, f1, rest);
    assert Link(subs, [f1] + rest).1[0] == again.1 && ([f1] + rest)[0] == f1;
    if f.sub == "" && again.1 == f1 && Link(again.0, rest).1 == rest {
      TurnFrame(subs, f1);
      SameNamed(again.0, subs, subs[j].name);
      HiddenStaysClosed(again.0, rest, j);
    } else if again.1 == f1 {
      assert Link(subs, [f1] + rest).1[1..] == Link(again.0, rest).1 && ([f1] + rest)[1..] == rest;
    }
  }

  lemma {:induction false} SecondPass(subs: seq<SubDevice>, fs: seq<Forward>)
    requires Named(subs)
    ensures Still(subs, fs) <==> !Relinks(subs, fs)
    decreases |fs|
  {
    if fs != [] {
      var (subs1, f1) := LinkOne(subs, fs[0]);
      var rest := Link(subs1, fs[1..]).1;
      TurnFrame(subs, fs[0]);
      if Unstable(subs, fs[0]) {
        LinkFrame(subs1, fs[1..]);
        UnstableTurnShows(subs, fs[0], rest, Link(subs1, fs[1..]).0);
      } else {
        StableTurn(subs, fs[0]);
        SecondPass(subs1, fs[1..]);
        LinkCons(subs, f1, rest);
        assert Link(subs, [f1] + rest).1[1..] == Link(subs1, rest).1;
        assert Link(subs, fs).1[1..] == rest;
      }
    }
  }

  /** One normalization is a fixpoint exactly when no turn of it is unstable. */
  lemma IdempotentIff(c: Config)
    ensures Normalized(Normalized(c)) == Normalized(c) <==> !Relinks(Base(c), c.forwards)
  {
    BaseOfNormalized(c);
    BaseIsNamed(c);
    SecondPass(Base(c), c.forwards);
  }

  lemma {:induction false} UnmarkedDoesNotRelink(subs: seq<SubDevice>, fs: seq<Forward>)
    requires NamesLead(subs) && forall k :: 0 <= k < |fs| ==> fs[k].sub == ""
    ensures !Relinks(subs, fs)
    decreases |fs|
  {
    if fs != [] {
      TurnKeepsLead(subs, fs[0]);
      UnmarkedDoesNotRelink(LinkOne(subs, fs[0]).0, fs[1..]);
    }
  }

  /** On data from before the marks existed, one normalization is a fixpoint. */
  lemma UnmarkedConverges(c: Config)
    requires NamesLead(Base(c))
    requires forall k :: 0 <= k < |c.forwards| ==> c.forwards[k].sub == ""
    ensures Normalized(Normalized(c)) == Normalized(c)
  {
    UnmarkedDoesNotRelink(Base(c), c.forwards);
    IdempotentIff(c);
  }
}
