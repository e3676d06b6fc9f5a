/** How good the convergence bound is, and exactly which sub-devices make every configuration settle
    (hub/dashboard/models.go:91-123). */
module Worst {
  import opened Common
  import opened Links
  import opened Convergence

  // ----- a chain of n forwards that needs n + 1 passes -----

  /** From sub-device `i` on: forward `k` targets sub-device `i + k` and is marked with the one before it,
      so that it is freed only after its predecessor has been linked. */
  predicate Chain(subs: seq<SubDevice>, i: nat, fs: seq<Forward>) {
    && DistinctNames(subs) && i + |fs| <= |subs| && fs != []
    && (forall j :: 0 <= j < |subs| ==> subs[j].ip != "" && (subs[j].expose <==> j < i))
    && (forall k :: 0 <= k < |fs| ==> IsTcp(fs[k]) && fs[k].target == Target(subs[i + k]))
    && (forall k :: 1 <= k < |fs| ==> fs[k].sub == subs[i + k - 1].name)
    && fs[0].sub != ""
    && var j := LastNamed(subs, fs[0].sub); j >= 0 ==> subs[j].expose
  }

  lemma {:induction false} KeepsMarks(subs: seq<SubDevice>, i: nat, fs: seq<Forward>)
    requires DistinctNames(subs) && i + |fs| <= |subs|
    requires forall j :: i <= j < |subs| ==> !subs[j].expose
    requires forall k :: 0 <= k < |fs| ==> fs[k].sub == subs[i + k].name
    ensures Link(subs, fs).1 == fs
    decreases |fs|
  {
    if fs != [] {
      LastNamedAt(subs, i);
      KeepsMarks(Exposed(subs, i, fs[0].listen), i + 1, fs[1..]);
    }
  }

  lemma ChainRest(subs: seq<SubDevice>, i: nat, fs: seq<Forward>, listen: int)
    requires Chain(subs, i, fs) && |fs| > 1
    ensures Chain(Exposed(subs, i, listen), i + 1, fs[1..])
  {
    var subs2, rest := Exposed(subs, i, listen), fs[1..];
    forall k | 0 <= k < |rest| ensures IsTcp(rest[k]) && rest[k].target == Target(subs2[i + 1 + k]) {
      assert rest[k] == fs[k + 1] && subs2[i + 1 + k] == subs[i + (k + 1)];
    }
    forall k | 0 <= k < |rest| ensures rest[k].sub == subs2[i + k].name {
      assert rest[k] == fs[k + 1];
    }
    assert rest[0].sub == subs2[i].name;
    LastNamedAt(subs2, i);
  }

  /** The first pass frees the head of a chain; once freed the head takes the sub-device that marks the
      next forward, which leaves a shorter chain behind it. */
  lemma ChainStep(subs: seq<SubDevice>, i: nat, fs: seq<Forward>)
    requires Chain(subs, i, fs)
    ensures var f1 := fs[0].(sub := "");
            && Link(subs, fs).1 == [f1] + fs[1..]
            && LinkOne(subs, f1).0 == Exposed(subs, i, f1.listen) && LinkOne(subs, f1).1.sub != ""
  {
    var f1 := fs[0].(sub := "");
    assert LinkOne(subs, fs[0]) == (subs, f1);
    forall k | 0 <= k < |fs[1..]| ensures fs[1..][k].sub == subs[i + k].name {
      assert fs[1..][k] == fs[k + 1];
    }
    KeepsMarks(subs, i, fs[1..]);
    assert fs[0].target == Target(subs[i + 0]);
    FirstClaimAt(subs, f1.target, i);
  }

  lemma {:induction false} ChainStillMoves(subs: seq<SubDevice>, i: nat, fs: seq<Forward>)
    requires Chain(subs, i, fs)
    ensures Passes(subs, fs, |fs| + 1) != Passes(subs, fs, |fs|)
    decreases |fs|
  {
    var f1 := fs[0].(sub := "");
    var rest := fs[1..];
    var gs := [f1] + rest;
    assert gs[1..] == rest;
    ChainStep(subs, i, fs);
    DistinctNamesLead(subs);
    var (subs2, f2) := LinkOne(subs, f1);
    PassesAfterSettled(subs, gs, |fs|);
    assert Passes(subs, fs, |fs| + 1) == [f2] + Passes(subs2, rest, |fs|);
    if rest == [] {
      assert Passes(subs, fs, 1) == Passes(subs, gs, 0);
    } else {
      PassesAfterSettled(subs, gs, |rest|);
      ChainRest(subs, i, fs, f1.listen);
      assert Passes(subs, fs, |fs|) == [f2] + Passes(subs2, rest, |rest|);
      ChainStillMoves(subs2, i + 1, rest);
      assert ([f2] + Passes(subs2, rest, |fs|))[1..] == Passes(subs2, rest, |fs|);
      assert ([f2] + Passes(subs2, rest, |rest|))[1..] == Passes(subs2, rest, |rest|);
    }
  }

  function Label(k: nat): string {
    seq(k + 1, i => 'x')
  }

  function ChainConfig(n: nat): Config {
    Config("chain", 15,
           seq(n, k requires 0 <= k < n => SubDevice(Label(k), "10.0.0.1", 80, false, 0, [])),
           seq(n, k requires 0 <= k < n =>
             Forward("f", "tcp", k + 1, "10.0.0.1:" + Decimal(80), if k == 0 then "gone" else Label(k - 1))),
           Update(true, 1), None)
  }

  lemma ChainNames(n: nat)
    ensures var subs := Base(ChainConfig(n));
            && subs == ChainConfig(n).subDevices && DistinctNames(subs)
            && forall j :: 0 <= j < n ==> |subs[j].name| == j + 1 && subs[j].name[0] == 'x'
  {
    var c := ChainConfig(n);
    forall j | 0 <= j < n ensures Base(c)[j] == c.subDevices[j] && |c.subDevices[j].name| == j + 1 {
      assert c.subDevices[j].name != "";
    }
  }

  lemma NobodyIsGone(subs: seq<SubDevice>)
    requires forall j :: 0 <= j < |subs| ==> subs[j].name != "" && subs[j].name[0] == 'x'
    ensures LastNamed(subs, "gone") == -1
  {
    assert "gone"[0] == 'g';
  }

  lemma ChainConfigIsChain(n: nat)
    requires n > 0
    ensures Chain(Base(ChainConfig(n)), 0, ChainConfig(n).forwards)
  {
    ChainNames(n);
    NobodyIsGone(Base(ChainConfig(n)));
  }

  /** The bound of `Convergence.Converges` is reached for every number of forwards. */
  lemma BoundIsTight(n: nat)
    requires n > 0
    ensures var c := ChainConfig(n);
            && |c.forwards| == n && DistinctNames(Base(c))
            && Normalized(NormalizedTimes(c, n)) != NormalizedTimes(c, n)
            && Normalized(NormalizedTimes(c, n + 1)) == NormalizedTimes(c, n + 1)
  {
    var c := ChainConfig(n);
    ChainConfigIsChain(n);
    DistinctNamesLead(Base(c));
    ChainStillMoves(Base(c), 0, c.forwards);
    ForwardsAfter(c, n);
    ForwardsAfter(c, n + 1);
    NormalizedOnceMore(c, n);
    Converges(c, n + 1);
  }

  // ----- exactly which sub-devices settle -----

  /** Loading the configuration often enough reaches one that every later load gives back unchanged. */
  ghost predicate Settles(c: Config) {
    exists t: nat :: Normalized(NormalizedTimes(c, t)) == NormalizedTimes(c, t)
  }

  /** The marks of the first `n` sub-devices that are the last of their name. */
  function LastMarks(subs: seq<SubDevice>, n: nat): seq<Forward>
    requires n <= |subs|
  {
    if n == 0 then []
    else if Leads(subs, n - 1) then LastMarks(subs, n - 1) + [Forward("m", "tcp", 1, "", subs[n - 1].name)]
    else LastMarks(subs, n - 1)
  }

  /** Those sub-devices, exposed by their marks. */
  function LastOpen(subs: seq<SubDevice>, n: nat): seq<SubDevice> {
    seq(|subs|, i requires 0 <= i < |subs| =>
      if i < n && Leads(subs, i) then subs[i].(expose := true, listen := 1) else subs[i])
  }

  predicate Closed(subs: seq<SubDevice>) {
    forall i :: 0 <= i < |subs| ==> !subs[i].expose
  }

  lemma MarkOpens(subs: seq<SubDevice>, n: nat)
    requires Named(subs) && Closed(subs) && 0 < n <= |subs| && Leads(subs, n - 1)
    ensures var f := Forward("m", "tcp", 1, "", subs[n - 1].name);
            LinkOne(LastOpen(subs, n - 1), f) == (LastOpen(subs, n), f)
  {
    var open := LastOpen(subs, n - 1);
    SameNamed(open, subs, subs[n - 1].name);
    assert Exposed(open, n - 1, 1) == LastOpen(subs, n);
  }

  /** The marks open every sub-device that is the last of its name and stay as they are. */
  lemma {:induction false} MarksOpen(subs: seq<SubDevice>, n: nat)
    requires Named(subs) && Closed(subs) && n <= |subs|
    ensures Gives(subs, LastMarks(subs, n), LastOpen(subs, n))
    decreases n
  {
    if n == 0 {
      assert LastOpen(subs, n) == subs;
    } else {
      MarksOpen(subs, n - 1);
      if Leads(subs, n - 1) {
        MarkOpens(subs, n);
        GivesMore(subs, LastMarks(subs, n - 1), LastOpen(subs, n - 1), Forward("m", "tcp", 1, "", subs[n - 1].name),
                  LastOpen(subs, n));
      } else {
        assert LastOpen(subs, n) == LastOpen(subs, n - 1);
      }
    }
  }

  lemma LastLeads(subs: seq<SubDevice>, i: nat)
    requires i < |subs|
    ensures var m := LastNamed(subs, subs[i].name); m >= 0 && Leads(subs, m)
  {
  }

  /** A free forward to a sub-device that is not the last of its name: it takes up the mark of a hidden
      sub-device in one pass and loses it in the next, since the name leads to one that is exposed. */
  lemma FreeSwings(subs: seq<SubDevice>, i: nat) returns (h: Forward)
    requires Named(subs) && Closed(subs) && i < |subs| && subs[i].ip != "" && !Leads(subs, i)
    ensures var open, g := LastOpen(subs, |subs|), Forward("g", "tcp", 2, Target(subs[i]), "");
            h != g && LinkOne(open, g).1 == h && LinkOne(open, h).1 == g
  {
    var open, g := LastOpen(subs, |subs|), Forward("g", "tcp", 2, Target(subs[i]), "");
    FirstClaimAt(open, g.target, i);
    var j := FirstClaim(open, g.target, 0);
    assert !open[j].expose && open[j].name == subs[j].name;
    h := g.(sub := subs[j].name);
    LastLeads(subs, j);
    SameNamed(open, subs, subs[j].name);
  }

  /** Two lists of forwards that a pass turns into each other. */
  predicate Swing(subs: seq<SubDevice>, fs: seq<Forward>, gs: seq<Forward>) {
    fs != gs && Link(subs, fs).1 == gs && Link(subs, gs).1 == fs
  }

  lemma SwingNext(c: Config, gs: seq<Forward>)
    requires Swing(Base(c), c.forwards, gs)
    ensures Swing(Base(Normalized(c)), Normalized(c).forwards, c.forwards) && Normalized(c) != c
  {
    BaseOfNormalized(c);
  }

  lemma {:induction false} SwingMoves(c: Config, gs: seq<Forward>, t: nat)
    requires Swing(Base(c), c.forwards, gs)
    ensures Normalized(NormalizedTimes(c, t)) != NormalizedTimes(c, t)
    decreases t
  {
    var next := Normalized(c);
    SwingNext(c, gs);
    if t == 0 {
      assert NormalizedTimes(c, t) == c;
    } else {
      SwingMoves(next, c.forwards, t - 1);
      assert NormalizedTimes(c, t) == NormalizedTimes(next, t - 1);
    }
  }

  lemma SwingNeverSettles(c: Config, gs: seq<Forward>)
    requires Swing(Base(c), c.forwards, gs)
    ensures !Settles(c)
  {
    forall t: nat ensures Normalized(NormalizedTimes(c, t)) != NormalizedTimes(c, t) {
      SwingMoves(c, gs, t);
    }
  }

  /** The forwards that keep a configuration with a hidden sub-device `i` moving. */
  function Mover(subs: seq<SubDevice>, i: nat): seq<Forward>
    requires i < |subs|
  {
    LastMarks(subs, |subs|) + [Forward("g", "tcp", 2, Target(subs[i]), "")]
  }

  lemma LinkBehind(subs: seq<SubDevice>, marks: seq<Forward>, open: seq<SubDevice>, f: Forward)
    requires Gives(subs, marks, open)
    ensures Link(subs, marks + [f]).1 == marks + [LinkOne(open, f).1]
  {
    LinkLast(subs, marks, f);
  }

  lemma MoverSwings(subs: seq<SubDevice>, i: nat) returns (gs: seq<Forward>)
    requires Named(subs) && Closed(subs) && i < |subs| && subs[i].ip != "" && !Leads(subs, i)
    ensures Swing(subs, Mover(subs, i), gs)
  {
    var marks, g := LastMarks(subs, |subs|), Forward("g", "tcp", 2, Target(subs[i]), "");
    var h := FreeSwings(subs, i);
    MarksOpen(subs, |subs|);
    LinkBehind(subs, marks, LastOpen(subs, |subs|), g);
    LinkBehind(subs, marks, LastOpen(subs, |subs|), h);
    gs := marks + [h];
    assert (marks + [g])[|marks|] == g && gs[|marks|] == h;
  }

  lemma BaseIsClosed(c: Config)
    ensures Closed(Base(c))
  {
  }

  lemma HiddenNeverSettles(c: Config, i: nat)
    requires i < |Base(c)| && Base(c)[i].ip != "" && !Leads(Base(c), i)
    ensures !Settles(c.(forwards := Mover(Base(c), i)))
  {
    var d := c.(forwards := Mover(Base(c), i));
    assert Base(d) == Base(c);
    BaseIsNamed(c);
    BaseIsClosed(c);
    var gs := MoverSwings(Base(c), i);
    SwingNeverSettles(d, gs);
  }

  /** Every list of forwards settles over the sub-devices of a configuration exactly when each sub-device with
      an address is the last of its name. */
  lemma SettlesIff(c: Config)
    ensures (forall fs :: Settles(c.(forwards := fs))) <==> NamesLead(Base(c))
  {
    BaseIsNamed(c);
    if NamesLead(Base(c)) {
      forall fs ensures Settles(c.(forwards := fs)) {
        var d := c.(forwards := fs);
        assert Base(d) == Base(c);
        Converges(d, |fs| + 1);
      }
    } else {
      var i: nat :| i < |Base(c)| && Base(c)[i].ip != "" && !Leads(Base(c), i);
      HiddenNeverSettles(c, i);
      assert !Settles(c.(forwards := Mover(Base(c), i)));
    }
  }

  // ----- exactly which configurations settle -----

  lemma {:induction false} PassesMore(subs: seq<SubDevice>, fs: seq<Forward>, t: nat, u: nat)
    ensures Passes(subs, fs, t + u) == Passes(subs, Passes(subs, fs, t), u)
    decreases t
  {
    if t > 0 {
      PassesMore(subs, Link(subs, fs).1, t - 1, u);
    }
  }

  /** The first forwards go their way whatever follows. */
  lemma {:induction false} PassesPrefix(subs: seq<SubDevice>, fs: seq<Forward>, g: Forward, t: nat) returns (h: Forward)
    ensures Passes(subs, fs + [g], t) == Passes(subs, fs, t) + [h]
    decreases t
  {
    if t == 0 {
      h := g;
    } else {
      LinkLast(subs, fs, g);
      h := PassesPrefix(subs, Link(subs, fs).1, LinkOne(Link(subs, fs).0, g).1, t - 1);
    }
  }

  /** The pass after `t` passes changes nothing. */
  predicate QuietAt(subs: seq<SubDevice>, fs: seq<Forward>, t: nat) {
    Passes(subs, fs, t + 1) == Passes(subs, fs, t)
  }

  lemma {:induction false} StaysQuiet(subs: seq<SubDevice>, fs: seq<Forward>, u: nat)
    requires Link(subs, fs).1 == fs
    ensures Passes(subs, fs, u) == fs
    decreases u
  {
    if u > 0 {
      StaysQuiet(subs, fs, u - 1);
    }
  }

  lemma OneMorePass(subs: seq<SubDevice>, fs: seq<Forward>, t: nat)
    ensures Passes(subs, fs, t + 1) == Link(subs, Passes(subs, fs, t)).1
  {
    PassesMore(subs, fs, t, 1);
    assert Passes(subs, Link(subs, Passes(subs, fs, t)).1, 0) == Link(subs, Passes(subs, fs, t)).1;
  }

  lemma PassesStay(subs: seq<SubDevice>, fs: seq<Forward>, t: nat, d: nat)
    requires QuietAt(subs, fs, t)
    ensures Passes(subs, fs, t + d) == Passes(subs, fs, t)
  {
    OneMorePass(subs, fs, t);
    PassesMore(subs, fs, t, d);
    StaysQuiet(subs, Passes(subs, fs, t), d);
  }

  lemma QuietLater(subs: seq<SubDevice>, fs: seq<Forward>, t: nat, d: nat)
    requires QuietAt(subs, fs, t)
    ensures QuietAt(subs, fs, t + d)
  {
    PassesStay(subs, fs, t, d);
    PassesStay(subs, fs, t, d + 1);
  }

  /** The last forward over sub-devices that no longer change. */
  function TurnTimes(open: seq<SubDevice>, f: Forward, k: nat): Forward
    decreases k
  {
    if k == 0 then f else LinkOne(open, TurnTimes(open, f, k - 1)).1
  }

  lemma {:induction false} PassesOfLast(subs: seq<SubDevice>, fs: seq<Forward>, open: seq<SubDevice>, f: Forward,
                                        k: nat)
    requires Gives(subs, fs, open)
    ensures Passes(subs, fs + [f], k) == fs + [TurnTimes(open, f, k)]
    decreases k
  {
    if k > 0 {
      PassesOfLast(subs, fs, open, f, k - 1);
      OneMorePass(subs, fs + [f], k - 1);
      LinkLast(subs, fs, TurnTimes(open, f, k - 1));
    }
  }

  /** A forward that still changes after two turns changes for ever: it takes up a mark and loses it again. */
  lemma TurnSwings(open: seq<SubDevice>, f: Forward)
    requires TurnTimes(open, f, 3) != TurnTimes(open, f, 2)
    ensures TurnTimes(open, f, 4) == TurnTimes(open, f, 2)
  {
    TurnsAre(open, f);
    assert TurnTimes(open, f, 4) == LinkOne(open, TurnTimes(open, f, 3)).1;
  }

  lemma TurnsAre(open: seq<SubDevice>, f: Forward)
    ensures TurnTimes(open, f, 1) == LinkOne(open, f).1
    ensures TurnTimes(open, f, 2) == LinkOne(open, LinkOne(open, f).1).1
    ensures TurnTimes(open, f, 3) == LinkOne(open, LinkOne(open, LinkOne(open, f).1).1).1
  {
    assert TurnTimes(open, f, 0) == f;
    assert TurnTimes(open, f, 1) == LinkOne(open, f).1;
    assert TurnTimes(open, f, 2) == LinkOne(open, TurnTimes(open, f, 1)).1;
  }

  lemma {:induction false} SwingsOn(open: seq<SubDevice>, f: Forward, k: nat)
    requires TurnTimes(open, f, 3) != TurnTimes(open, f, 2) && k >= 2
    ensures TurnTimes(open, f, k + 1) != TurnTimes(open, f, k) == TurnTimes(open, f, k + 2)
    decreases k
  {
    if k == 2 {
      TurnSwings(open, f);
    } else {
      SwingsOn(open, f, k - 1);
    }
  }

  lemma QuietLast(subs: seq<SubDevice>, fs: seq<Forward>, open: seq<SubDevice>, f: Forward, k: nat)
    requires Gives(subs, fs, open) && QuietAt(subs, fs + [f], k)
    ensures TurnTimes(open, f, k + 1) == TurnTimes(open, f, k)
  {
    PassesOfLast(subs, fs, open, f, k);
    PassesOfLast(subs, fs, open, f, k + 1);
    assert (fs + [TurnTimes(open, f, k + 1)])[|fs|] == (fs + [TurnTimes(open, f, k)])[|fs|];
  }

  /** A forward behind settled ones either settles within two passes or never. */
  lemma LastSettles(subs: seq<SubDevice>, fs: seq<Forward>, open: seq<SubDevice>, f: Forward, u: nat)
    requires Gives(subs, fs, open) && QuietAt(subs, fs + [f], u)
    ensures QuietAt(subs, fs + [f], 2)
  {
    PassesOfLast(subs, fs, open, f, 2);
    PassesOfLast(subs, fs, open, f, 3);
    QuietLater(subs, fs + [f], u, 2);
    QuietLast(subs, fs, open, f, u + 2);
    if TurnTimes(open, f, 3) != TurnTimes(open, f, 2) {
      SwingsOn(open, f, u + 2);
      assert false;
    }
  }

  /** What is ever settled is settled after twice as many passes as there are forwards. */
  lemma {:induction false} QuietInTime(subs: seq<SubDevice>, fs: seq<Forward>, u: nat)
    requires QuietAt(subs, fs, u)
    ensures QuietAt(subs, fs, 2 * |fs|)
    decreases |fs|
  {
    if fs == [] {
      PassesOfNone(subs, 1);
    } else {
      var m := |fs| - 1;
      assert fs == fs[..m] + [fs[m]];
      QuietStart(subs, fs[..m], fs[m], u);
      QuietInTime(subs, fs[..m], u);
      LastInTime(subs, fs[..m], fs[m], u);
    }
  }

  lemma QuietStart(subs: seq<SubDevice>, fs: seq<Forward>, f: Forward, u: nat)
    requires QuietAt(subs, fs + [f], u)
    ensures QuietAt(subs, fs, u)
  {
    var h := PassesPrefix(subs, fs, f, u);
    var h' := PassesPrefix(subs, fs, f, u + 1);
    assert Passes(subs, fs, u) == (Passes(subs, fs, u) + [h])[..|fs|];
    assert Passes(subs, fs, u + 1) == (Passes(subs, fs, u + 1) + [h'])[..|fs|];
  }

  lemma LastInTime(subs: seq<SubDevice>, fs: seq<Forward>, f: Forward, u: nat)
    requires QuietAt(subs, fs + [f], u) && QuietAt(subs, fs, 2 * |fs|)
    ensures QuietAt(subs, fs + [f], 2 * |fs| + 2)
  {
    var t, p := 2 * |fs|, Passes(subs, fs, 2 * |fs|);
    var h := PassesPrefix(subs, fs, f, t);
    OneMorePass(subs, fs, t);
    QuietLater(subs, fs + [f], u, t);
    PassesMore(subs, fs + [f], t, u);
    PassesMore(subs, fs + [f], t, u + 1);
    LastSettles(subs, p, Link(subs, p).0, h, u);
    PassesMore(subs, fs + [f], t, 2);
    PassesMore(subs, fs + [f], t, 3);
  }

  lemma FixedIsQuiet(c: Config, t: nat)
    requires Normalized(NormalizedTimes(c, t)) == NormalizedTimes(c, t)
    ensures QuietAt(Base(c), c.forwards, t)
  {
    NormalizedOnceMore(c, t);
    ForwardsAfter(c, t);
    ForwardsAfter(c, t + 1);
  }

  lemma QuietIsFixed(c: Config, t: nat)
    requires QuietAt(Base(c), c.forwards, t)
    ensures Normalized(NormalizedTimes(c, t + 1)) == NormalizedTimes(c, t + 1)
  {
    var p := TimesAreLinked(c, t + 1);
    OneMorePass(Base(c), c.forwards, t);
    LinkedStillIsFixed(c, NormalizedTimes(c, t + 1), p);
  }

  /** Whatever the names: a configuration that is not settled by one load more than twice its forwards never
      settles. */
  lemma SettlesInTime(c: Config)
    ensures var t := 2 * |c.forwards| + 1;
            Settles(c) <==> Normalized(NormalizedTimes(c, t)) == NormalizedTimes(c, t)
  {
    if Settles(c) {
      var u: nat :| Normalized(NormalizedTimes(c, u)) == NormalizedTimes(c, u);
      FixedIsQuiet(c, u);
      QuietInTime(Base(c), c.forwards, u);
      QuietIsFixed(c, 2 * |c.forwards|);
    }
  }

  // ----- a proposal that never settles -----

  /** What the hub stores of the configuration that an agent proposes when it first enrols. */
  function Proposed(name: string, local: Config): Config {
    var n := Normalized(local);
    Normalized(Config(name, 15, n.subDevices, n.forwards, Update(true, 1), None))
  }

  /** The agent's own file: two sub-devices of one name, a forward to the second and one to the first. */
  const TWINS := Config("", 0,
    [SubDevice("A", "10.0.0.1", 80, false, 0, []), SubDevice("A", "10.0.0.2", 80, false, 0, [])],
    [Forward("f", "tcp", 1, "10.0.0.2:" + Decimal(80), ""), Forward("g", "tcp", 2, "10.0.0.1:" + Decimal(80), "")],
    Update(false, 0), None)

  lemma TwinsSwing()
    ensures var subs, f, g := TWINS.subDevices, TWINS.forwards[0].(sub := "A"), TWINS.forwards[1];
            var h := g.(sub := "A");
            && Link(subs, TWINS.forwards).1 == [f] + [h]
            && Link(subs, [f] + [g]).1 == [f] + [h] && Link(subs, [f] + [h]).1 == [f] + [g]
  {
    var subs, free, f, g := TWINS.subDevices, TWINS.forwards[0], TWINS.forwards[0].(sub := "A"), TWINS.forwards[1];
    var h := g.(sub := "A");
    TwinTargets();
    assert LastNamed(subs, "A") == 1;
    var subs1 := Exposed(subs, 1, 1);
    assert FirstClaim(subs, free.target, 0) == 1;
    assert LinkOne(subs, free) == (subs1, f) && LinkOne(subs, f) == (subs1, f);
    assert FirstClaim(subs1, g.target, 0) == 0;
    assert LinkOne(subs1, g).1 == h && LinkOne(subs1, h).1 == g;
    assert TWINS.forwards == [free] + [g];
    LinkCons(subs, free, [g]);
    LinkCons(subs, f, [g]);
    LinkCons(subs, f, [h]);
    LinkCons(subs1, g, []);
    LinkCons(subs1, h, []);
    assert [g] + [] == [g] && [h] + [] == [h];
  }

  lemma TwinTargets()
    ensures "10.0.0.1:" + Decimal(80) != "10.0.0.2:" + Decimal(80)
  {
    assert ("10.0.0.1:" + Decimal(80))[7] == '1' && ("10.0.0.2:" + Decimal(80))[7] == '2';
  }

  /** Two sub-devices of one name in the agent's file are enough: the stored proposal changes on every load,
      for ever. */
  lemma DuplicateNamesNeverSettle(name: string)
    ensures !Settles(Proposed(name, TWINS))
  {
    var f, g := TWINS.forwards[0].(sub := "A"), TWINS.forwards[1];
    var h := g.(sub := "A");
    TwinsSwing();
    TwinsStored(name);
    assert ([f] + [g])[1] == g && ([f] + [h])[1] == h;
    SwingNeverSettles(Proposed(name, TWINS), [f] + [h]);
  }

  lemma TwinsStored(name: string)
    ensures Base(Proposed(name, TWINS)) == TWINS.subDevices
    ensures Proposed(name, TWINS).forwards == [TWINS.forwards[0].(sub := "A")] + [TWINS.forwards[1]]
  {
    var n := Normalized(TWINS);
    var c := Config(name, 15, n.subDevices, n.forwards, Update(true, 1), None);
    assert Base(TWINS) == TWINS.subDevices;
    BaseOfNormalized(TWINS);
    assert Base(c) == Base(n);
    BaseOfNormalized(c);
    TwinsSwing();
  }
}
