/** Rebuilding the forward list from the exposed sub-devices (hub/dashboard/models.go:125-150): saving
    then loading, and the migration of configurations that predate the marks. */
module Access {
  import opened Common
  import opened Links
  import Slugs

  // ----- buildForwards -----

  /** The sub-devices that get an access of their own. */
  predicate Kept(sd: SubDevice) {
    sd.expose && sd.ip != "" && sd.port > 0
  }

  function BuiltSub(sd: SubDevice): SubDevice {
    if !Kept(sd) then sd.(expose := false, listen := 0)
    else if sd.listen <= 0 then sd.(listen := sd.port)
    else sd
  }

  function AccessName(sd: SubDevice, i: nat): (s: string)
    ensures s != ""
  {
    var name := Slugs.Slug(sd.name);
    if name == "" then "acces-" + Decimal(i + 1) else name
  }

  /** The forward of sub-device `i`, once its listen port has been settled. */
  function AccessOf(sd: SubDevice, i: nat): Forward {
    Forward(AccessName(sd, i), "tcp", sd.listen, Target(sd), sd.name)
  }

  function BuiltSubs(subs: seq<SubDevice>): seq<SubDevice> {
    seq(|subs|, i requires 0 <= i < |subs| => BuiltSub(subs[i]))
  }

  /** The accesses of the first `n` sub-devices. */
  function Accesses(subs: seq<SubDevice>, n: nat): seq<Forward>
    requires n <= |subs|
  {
    if n == 0 then []
    else if Kept(subs[n - 1]) then Accesses(subs, n - 1) + [AccessOf(BuiltSub(subs[n - 1]), n - 1)]
    else Accesses(subs, n - 1)
  }

  function FreeOf(fs: seq<Forward>): seq<Forward> {
    if fs == [] then []
    else
      var last := fs[|fs| - 1];
      FreeOf(fs[..|fs| - 1]) + (if last.sub == "" then [last] else [])
  }

  function Built(c: Config): Config {
    c.(subDevices := BuiltSubs(c.subDevices),
       forwards := Accesses(c.subDevices, |c.subDevices|) + FreeOf(c.forwards))
  }

  // ----- saving, then loading -----

  lemma {:induction false} FreeOfIsFree(fs: seq<Forward>)
    ensures forall k :: 0 <= k < |FreeOf(fs)| ==> FreeOf(fs)[k].sub == "" && FreeOf(fs)[k] in fs
  {
    if fs != [] {
      FreeOfIsFree(fs[..|fs| - 1]);
    }
  }

  /** The sub-devices after the accesses of the first `n` have been linked. */
  function Partly(built: seq<SubDevice>, n: nat): seq<SubDevice>
    requires n <= |built|
  {
    seq(|built|, i requires 0 <= i < |built| => if i < n then built[i] else Cleared(built[i], i))
  }

  lemma PartlyNames(subs: seq<SubDevice>, n: nat)
    requires DistinctNames(subs) && n <= |subs|
    ensures DistinctNames(Partly(BuiltSubs(subs), n))
  {
    forall i | 0 <= i < |subs| ensures Partly(BuiltSubs(subs), n)[i].name == subs[i].name {}
  }

  /** The access `f` of sub-device `n - 1` exposes it as it was built. */
  lemma AccessRelinksOne(subs: seq<SubDevice>, n: nat, f: Forward)
    requires DistinctNames(subs) && 0 < n <= |subs| && Kept(subs[n - 1])
    requires f.sub == subs[n - 1].name && f.listen == BuiltSub(subs[n - 1]).listen
    ensures LinkOne(Partly(BuiltSubs(subs), n - 1), f) == (Partly(BuiltSubs(subs), n), f)
  {
    var built, before := BuiltSubs(subs), Partly(BuiltSubs(subs), n - 1);
    PartlyNames(subs, n - 1);
    LastNamedAt(before, n - 1);
    assert before[n - 1] == Cleared(built[n - 1], n - 1);
    assert Exposed(before, n - 1, f.listen) == Partly(built, n);
  }

  lemma UnkeptIsCleared(subs: seq<SubDevice>, n: nat)
    requires DistinctNames(subs) && 0 < n <= |subs| && !Kept(subs[n - 1])
    ensures Partly(BuiltSubs(subs), n - 1) == Partly(BuiltSubs(subs), n)
  {
    assert BuiltSubs(subs)[n - 1] == Cleared(BuiltSubs(subs)[n - 1], n - 1);
  }

  lemma KeptRelinks(subs: seq<SubDevice>, n: nat, fs: seq<Forward>, f: Forward)
    requires DistinctNames(subs) && 0 < n <= |subs| && Kept(subs[n - 1])
    requires f.sub == subs[n - 1].name && f.listen == BuiltSub(subs[n - 1]).listen
    requires Gives(ClearedAll(BuiltSubs(subs)), fs, Partly(BuiltSubs(subs), n - 1))
    ensures Gives(ClearedAll(BuiltSubs(subs)), fs + [f], Partly(BuiltSubs(subs), n))
  {
    AccessRelinksOne(subs, n, f);
    GivesMore(ClearedAll(BuiltSubs(subs)), fs, Partly(BuiltSubs(subs), n - 1), f, Partly(BuiltSubs(subs), n));
  }

  lemma AccessesRelinkNext(subs: seq<SubDevice>, n: nat)
    requires DistinctNames(subs) && 0 < n <= |subs|
    requires Gives(ClearedAll(BuiltSubs(subs)), Accesses(subs, n - 1), Partly(BuiltSubs(subs), n - 1))
    ensures Gives(ClearedAll(BuiltSubs(subs)), Accesses(subs, n), Partly(BuiltSubs(subs), n))
  {
    if Kept(subs[n - 1]) {
      KeptRelinks(subs, n, Accesses(subs, n - 1), AccessOf(BuiltSub(subs[n - 1]), n - 1));
    } else {
      UnkeptIsCleared(subs, n);
    }
  }

  lemma NoneRelinked(subs: seq<SubDevice>)
    ensures Gives(ClearedAll(BuiltSubs(subs)), Accesses(subs, 0), Partly(BuiltSubs(subs), 0))
  {
    assert Partly(BuiltSubs(subs), 0) == ClearedAll(BuiltSubs(subs));
  }

  /** Linking the accesses brings back exactly the sub-devices they were built from and leaves every mark. */
  lemma {:induction false} AccessesRelink(subs: seq<SubDevice>, n: nat)
    requires DistinctNames(subs) && n <= |subs|
    ensures Gives(ClearedAll(BuiltSubs(subs)), Accesses(subs, n), Partly(BuiltSubs(subs), n))
    decreases n
  {
    if n == 0 {
      NoneRelinked(subs);
    } else {
      AccessesRelink(subs, n - 1);
      AccessesRelinkNext(subs, n);
    }
  }

  /** Some free forward targets a sub-device that is not exposed. */
  predicate Claimed(subs: seq<SubDevice>, fs: seq<Forward>) {
    exists k :: 0 <= k < |fs| && fs[k].sub == "" && IsTcp(fs[k]) && FirstClaim(subs, fs[k].target, 0) >= 0
  }

  lemma {:induction false} FreeStayFree(subs: seq<SubDevice>, fs: seq<Forward>)
    requires DistinctNames(subs) && forall k :: 0 <= k < |fs| ==> fs[k].sub == ""
    ensures Link(subs, fs) == (subs, fs) <==> !Claimed(subs, fs)
    decreases |fs|
  {
    if fs != [] {
      var (subs1, f1) := LinkOne(subs, fs[0]);
      if f1.sub == "" {
        FreeStayFree(subs, fs[1..]);
        assert [fs[0]] + fs[1..] == fs;
        if Claimed(subs, fs) {
          var k :| 0 <= k < |fs| && IsTcp(fs[k]) && FirstClaim(subs, fs[k].target, 0) >= 0;
          assert fs[1..][k - 1] == fs[k];
        }
        assert Link(subs, fs).1[1..] == Link(subs, fs[1..]).1;
      } else {
        assert Link(subs, fs).1[0] == f1;
      }
    }
  }

  lemma {:induction false} FreeOfContains(fs: seq<Forward>, k: nat)
    requires k < |fs| && fs[k].sub == ""
    ensures fs[k] in FreeOf(fs)
  {
    if k < |fs| - 1 {
      FreeOfContains(fs[..|fs| - 1], k);
    }
  }

  lemma ClaimedOfFree(subs: seq<SubDevice>, fs: seq<Forward>)
    ensures Claimed(subs, FreeOf(fs)) <==> Claimed(subs, fs)
  {
    FreeOfIsFree(fs);
    forall k | 0 <= k < |fs| && fs[k].sub == "" ensures fs[k] in FreeOf(fs) {
      FreeOfContains(fs, k);
    }
  }

  /** The configuration holds the sub-devices as rebuilt from `subs`, their accesses, and free forwards. */
  predicate BuiltFrom(c: Config, subs: seq<SubDevice>, free: seq<Forward>) {
    && c.subDevices == BuiltSubs(subs) && c.processor.None?
    && c.forwards == Accesses(subs, |subs|) + free
    && forall k :: 0 <= k < |free| ==> free[k].sub == ""
  }

  /** Loading it links the free forwards over the sub-devices as built. */
  lemma LoadOfBuilt(c: Config, subs: seq<SubDevice>, free: seq<Forward>)
    requires DistinctNames(subs) && BuiltFrom(c, subs, free)
    ensures var r := Link(BuiltSubs(subs), free);
            Normalized(c) == c.(subDevices := r.0, forwards := Accesses(subs, |subs|) + r.1)
  {
    assert Base(c) == ClearedAll(BuiltSubs(subs));
    AccessesRelink(subs, |subs|);
    assert Partly(BuiltSubs(subs), |subs|) == BuiltSubs(subs);
    LinkAppend(ClearedAll(BuiltSubs(subs)), Accesses(subs, |subs|), free);
  }

  lemma BuiltNames(subs: seq<SubDevice>)
    requires DistinctNames(subs)
    ensures DistinctNames(BuiltSubs(subs))
  {
    forall i | 0 <= i < |subs| ensures BuiltSubs(subs)[i].name == subs[i].name {}
  }

  lemma KeptStaysExposed(subs: seq<SubDevice>, fs: seq<Forward>, j: nat)
    requires j < |subs| && subs[j].expose
    ensures |Link(subs, fs).0| == |subs| && Link(subs, fs).0[j] == subs[j]
  {
    LinkFrame(subs, fs);
  }

  lemma SameEnds<T>(a: seq<T>, b: seq<T>, c: seq<T>)
    ensures a + b == a + c <==> b == c
  {
    if a + b == a + c {
      assert b == (a + b)[|a|..] && c == (a + c)[|a|..];
    }
  }

  lemma {:induction false} AccessesAreMarked(subs: seq<SubDevice>, n: nat)
    requires Named(subs) && n <= |subs|
    ensures forall k :: 0 <= k < |Accesses(subs, n)| ==> Accesses(subs, n)[k].sub != ""
    decreases n
  {
    if n > 0 {
      AccessesAreMarked(subs, n - 1);
    }
  }

  /** Only free forwards can claim. */
  lemma ClaimedBehind(subs: seq<SubDevice>, marked: seq<Forward>, fs: seq<Forward>)
    requires forall k :: 0 <= k < |marked| ==> marked[k].sub != ""
    ensures Claimed(subs, marked + fs) <==> Claimed(subs, fs)
  {
    var all := marked + fs;
    if Claimed(subs, all) {
      var k :| 0 <= k < |all| && all[k].sub == "" && IsTcp(all[k]) && FirstClaim(subs, all[k].target, 0) >= 0;
      assert all[k] == fs[k - |marked|];
    }
    if Claimed(subs, fs) {
      var k :| 0 <= k < |fs| && fs[k].sub == "" && IsTcp(fs[k]) && FirstClaim(subs, fs[k].target, 0) >= 0;
      assert all[|marked| + k] == fs[k];
    }
  }

  /** A rebuilt configuration, loaded: every exposed sub-device stays as it is, and the load changes nothing at
      all exactly when no free forward targets a sub-device that is not exposed. */
  lemma LoadKeepsBuilt(c: Config, subs: seq<SubDevice>, free: seq<Forward>)
    requires DistinctNames(subs) && BuiltFrom(c, subs, free)
    ensures var n := Normalized(c);
            && |n.subDevices| == |c.subDevices|
            && (forall j :: 0 <= j < |c.subDevices| && c.subDevices[j].expose ==> n.subDevices[j] == c.subDevices[j])
            && (n == c <==> !Claimed(c.subDevices, c.forwards))
  {
    var built := BuiltSubs(subs);
    LoadOfBuilt(c, subs, free);
    BuiltNames(subs);
    LinkFrame(built, free);
    forall j | 0 <= j < |built| && built[j].expose ensures Link(built, free).0[j] == built[j] {
      KeptStaysExposed(built, free, j);
    }
    FreeStayFree(built, free);
    AccessesAreMarked(subs, |subs|);
    ClaimedBehind(built, Accesses(subs, |subs|), free);
    SameEnds(Accesses(subs, |subs|), Link(built, free).1, free);
  }

  lemma BuiltIsBuiltFrom(c: Config)
    requires c.processor.None?
    ensures BuiltFrom(Built(c), c.subDevices, FreeOf(c.forwards))
  {
    FreeOfIsFree(c.forwards);
  }

  /** Rebuilding then loading: every sub-device that can be rebuilt keeps its exposure with its listen port
      defaulted, and the load changes nothing at all exactly when no free forward targets a sub-device that is
      not exposed. */
  lemma BuildThenLoad(c: Config)
    requires DistinctNames(c.subDevices) && c.processor.None?
    ensures var b, n := Built(c), Normalized(Built(c));
            && |n.subDevices| == |c.subDevices|
            && (forall j :: 0 <= j < |c.subDevices| && Kept(c.subDevices[j]) ==>
                  var sd := c.subDevices[j];
                  n.subDevices[j] == sd.(listen := if sd.listen <= 0 then sd.port else sd.listen))
            && (n == b <==> !Claimed(BuiltSubs(c.subDevices), c.forwards))
  {
    var subs := c.subDevices;
    BuiltIsBuiltFrom(c);
    LoadKeepsBuilt(Built(c), subs, FreeOf(c.forwards));
    forall j | 0 <= j < |subs| && Kept(subs[j]) ensures Normalized(Built(c)).subDevices[j] == BuiltSubs(subs)[j] {
      assert Built(c).subDevices[j].expose;
    }
    AccessesAreMarked(subs, |subs|);
    ClaimedBehind(BuiltSubs(subs), Accesses(subs, |subs|), FreeOf(c.forwards));
    ClaimedOfFree(BuiltSubs(subs), c.forwards);
  }

  // ----- migration -----

  datatype Route = Route(proto: string, listen: int, target: string)

  function RouteOf(f: Forward): Route {
    Route(if f.proto == "" then "tcp" else f.proto, f.listen, f.target)
  }

  function RouteList(fs: seq<Forward>): seq<Route> {
    seq(|fs|, i requires 0 <= i < |fs| => RouteOf(fs[i]))
  }

  /** What a list of forwards asks the agent to relay. */
  function Routes(fs: seq<Forward>): multiset<Route> {
    multiset(RouteList(fs))
  }

  function OpenedOne(sd: SubDevice): multiset<Route> {
    if sd.expose then multiset{Route("tcp", sd.listen, Target(sd))} else multiset{}
  }

  /** The routes that the exposed ones of the first `n` sub-devices stand for. */
  function Opened(subs: seq<SubDevice>, n: nat): multiset<Route>
    requires n <= |subs|
  {
    if n == 0 then multiset{} else Opened(subs, n - 1) + OpenedOne(subs[n - 1])
  }

  lemma RoutesAppend(fs: seq<Forward>, gs: seq<Forward>)
    ensures Routes(fs + gs) == Routes(fs) + Routes(gs)
  {
    assert RouteList(fs + gs) == RouteList(fs) + RouteList(gs);
  }

  /** Opens one route in all but the last. */
  lemma OneMore<T>(a: multiset<T>, a': multiset<T>, r: multiset<T>, last: multiset<T>)
    requires a' == a + r
    ensures a' + last == a + last + r
  {
  }

  lemma {:induction false} OpenedSame(subs: seq<SubDevice>, subs1: seq<SubDevice>, n: nat)
    requires n <= |subs| == |subs1| && forall i :: 0 <= i < n ==> subs1[i] == subs[i]
    ensures Opened(subs1, n) == Opened(subs, n)
    decreases n
  {
    if n > 0 {
      OpenedSame(subs, subs1, n - 1);
    }
  }

  /** `subs1` opens what `subs` opens and `r` besides, at sub-device `j`. */
  predicate OpensAt(subs: seq<SubDevice>, subs1: seq<SubDevice>, j: nat, r: multiset<Route>) {
    && j < |subs| == |subs1| && (forall i :: 0 <= i < |subs| && i != j ==> subs1[i] == subs[i])
    && OpenedOne(subs[j]) == multiset{} && OpenedOne(subs1[j]) == r
  }

  lemma OpenedHere(subs: seq<SubDevice>, subs1: seq<SubDevice>, j: nat, r: multiset<Route>)
    requires OpensAt(subs, subs1, j, r)
    ensures Opened(subs1, j + 1) == Opened(subs, j + 1) + r
  {
    OpenedSame(subs, subs1, j);
    OneMore(Opened(subs, j), Opened(subs, j) + r, r, multiset{});
  }

  lemma {:induction false} OpenedMore(subs: seq<SubDevice>, subs1: seq<SubDevice>, j: nat, r: multiset<Route>, n: nat)
    requires OpensAt(subs, subs1, j, r) && j < n <= |subs|
    ensures Opened(subs1, n) == Opened(subs, n) + r
    decreases n
  {
    if n == j + 1 {
      OpenedHere(subs, subs1, j, r);
    } else {
      OpenedMore(subs, subs1, j, r, n - 1);
      OneMore(Opened(subs, n - 1), Opened(subs1, n - 1), r, OpenedOne(subs[n - 1]));
    }
  }

  lemma RoutesOne(f: Forward)
    ensures Routes([f]) == multiset{RouteOf(f)}
  {
    assert RouteList([f]) == [RouteOf(f)];
  }

  lemma TurnMovesRoute(subs: seq<SubDevice>, f: Forward)
    requires Named(subs) && f.sub == ""
    ensures |LinkOne(subs, f).0| == |subs|
    ensures Opened(LinkOne(subs, f).0, |subs|) + FreeRoutes([LinkOne(subs, f).1]) ==
            Opened(subs, |subs|) + multiset{RouteOf(f)}
  {
    var f1, j := LinkOne(subs, f).1, if IsTcp(f) then FirstClaim(subs, f.target, 0) else -1;
    assert [f1][..0] == [];
    assert FreeOf([f1]) == if f1.sub == "" then [f1] else [];
    if j >= 0 {
      assert f1.sub == subs[j].name && RouteOf(f) == Route("tcp", f.listen, Target(subs[j]));
      OpenedMore(subs, Exposed(subs, j, f.listen), j, multiset{RouteOf(f)}, |subs|);
    } else {
      RoutesOne(f);
    }
  }

  /** The routes of the forwards that carry no mark. */
  function FreeRoutes(fs: seq<Forward>): multiset<Route> {
    Routes(FreeOf(fs))
  }

  lemma {:induction false} FreeRoutesAppend(fs: seq<Forward>, gs: seq<Forward>)
    ensures FreeRoutes(fs + gs) == FreeRoutes(fs) + FreeRoutes(gs)
  {
    FreeOfAppend(fs, gs);
    RoutesAppend(FreeOf(fs), FreeOf(gs));
  }

  lemma {:induction false} FreeOfAppend(fs: seq<Forward>, gs: seq<Forward>)
    ensures FreeOf(fs + gs) == FreeOf(fs) + FreeOf(gs)
  {
    if gs == [] {
      assert fs + gs == fs;
    } else {
      var m := |gs| - 1;
      assert (fs + gs)[..|fs| + m] == fs + gs[..m];
      FreeOfAppend(fs, gs[..m]);
    }
  }

  /** Linking unmarked forwards moves routes from the free forwards to the sub-devices, losing none. */
  lemma {:induction false} LinkMovesRoutes(subs: seq<SubDevice>, fs: seq<Forward>)
    requires Named(subs)
    requires forall k :: 0 <= k < |fs| ==> fs[k].sub == ""
    ensures |Link(subs, fs).0| == |subs|
    ensures Opened(Link(subs, fs).0, |subs|) + FreeRoutes(Link(subs, fs).1) == Opened(subs, |subs|) + Routes(fs)
    decreases |fs|
  {
    if fs == [] {
      assert Link(subs, fs) == (subs, []) && Routes([]) == multiset{};
    } else {
      var (subs1, f1) := LinkOne(subs, fs[0]);
      LinkMovesRoutes(subs1, fs[1..]);
      LinkMovesStep(subs, fs, subs1, f1, Link(subs1, fs[1..]));
    }
  }

  lemma LinkMovesStep(subs: seq<SubDevice>, fs: seq<Forward>, subs1: seq<SubDevice>, f1: Forward,
                      r: (seq<SubDevice>, seq<Forward>))
    requires fs != [] && Named(subs) && fs[0].sub == "" && (subs1, f1) == LinkOne(subs, fs[0])
    requires |r.0| == |subs1| == |subs|
    requires Opened(r.0, |subs|) + FreeRoutes(r.1) == Opened(subs1, |subs|) + Routes(fs[1..])
    ensures Opened(r.0, |subs|) + FreeRoutes([f1] + r.1) == Opened(subs, |subs|) + Routes(fs)
  {
    TurnMovesRoute(subs, fs[0]);
    RoutesCons(fs);
    FreeRoutesAppend([f1], r.1);
    Regroup(Opened(subs1, |subs|), Opened(r.0, |subs|), Opened(subs, |subs|), FreeRoutes([f1]), FreeRoutes(r.1),
            multiset{RouteOf(fs[0])}, Routes(fs[1..]));
  }

  lemma Regroup(o1: multiset<Route>, o2: multiset<Route>, o: multiset<Route>, a: multiset<Route>,
                b: multiset<Route>, r: multiset<Route>, rest: multiset<Route>)
    requires o1 + a == o + r && o2 + b == o1 + rest
    ensures o2 + (a + b) == o + (r + rest)
  {
    forall x ensures (o2 + (a + b))[x] == (o + (r + rest))[x] {
      assert (o1 + a)[x] == (o + r)[x] && (o2 + b)[x] == (o1 + rest)[x];
    }
  }

  lemma RoutesCons(fs: seq<Forward>)
    requires fs != []
    ensures Routes(fs) == multiset{RouteOf(fs[0])} + Routes(fs[1..])
  {
    assert fs == [fs[0]] + fs[1..];
    RoutesAppend([fs[0]], fs[1..]);
    RoutesOne(fs[0]);
  }

  lemma {:induction false} ClearedOpenNothing(subs: seq<SubDevice>, n: nat)
    requires n <= |subs| && forall j :: 0 <= j < |subs| ==> !subs[j].expose
    ensures Opened(subs, n) == multiset{}
    decreases n
  {
    if n > 0 {
      ClearedOpenNothing(subs, n - 1);
    }
  }

  /** The sub-device, if it is exposed, can be rebuilt with the port it is exposed on. */
  predicate CanRebuild(sd: SubDevice) {
    sd.expose ==> Kept(sd) && sd.listen > 0
  }

  predicate Rebuildable(subs: seq<SubDevice>, n: nat)
    requires n <= |subs|
  {
    n == 0 || (Rebuildable(subs, n - 1) && CanRebuild(subs[n - 1]))
  }

  lemma {:induction false} RebuildableAll(subs: seq<SubDevice>, n: nat)
    requires n <= |subs|
    ensures Rebuildable(subs, n) <==> forall j :: 0 <= j < n ==> CanRebuild(subs[j])
    decreases n
  {
    if n > 0 {
      RebuildableAll(subs, n - 1);
    }
  }

  lemma Cancel(a: multiset<Route>, b: multiset<Route>, c: multiset<Route>)
    requires a + c == b + c
    ensures a == b
  {
    assert a == a + c - c == b;
  }

  function AccessRoute(sd: SubDevice): multiset<Route> {
    if Kept(sd) then multiset{Route("tcp", BuiltSub(sd).listen, Target(sd))} else multiset{}
  }

  lemma AccessRoutesLast(subs: seq<SubDevice>, n: nat)
    requires 0 < n <= |subs|
    ensures Routes(Accesses(subs, n)) == Routes(Accesses(subs, n - 1)) + AccessRoute(subs[n - 1])
  {
    if Kept(subs[n - 1]) {
      var f := AccessOf(BuiltSub(subs[n - 1]), n - 1);
      RoutesAppend(Accesses(subs, n - 1), [f]);
      RoutesOne(f);
    }
  }

  /** The routes `a` of the accesses agree with the opened routes `o` exactly when `same` holds. */
  ghost predicate Relate(a: multiset<Route>, o: multiset<Route>, same: bool) {
    |a| <= |o| && (forall r :: r in a ==> r.listen > 0) && (a == o <==> same)
  }

  lemma ClosedRelates(last: SubDevice, a: multiset<Route>, o: multiset<Route>, same: bool)
    requires Relate(a, o, same) && !last.expose
    ensures Relate(a + AccessRoute(last), o + OpenedOne(last), same)
  {
    assert a + AccessRoute(last) == a && o + OpenedOne(last) == o;
  }

  lemma RebuiltRelates(last: SubDevice, a: multiset<Route>, o: multiset<Route>, same: bool)
    requires Relate(a, o, same) && Kept(last) && last.listen > 0
    ensures Relate(a + AccessRoute(last), o + OpenedOne(last), same)
  {
    var r := AccessRoute(last);
    assert OpenedOne(last) == r;
    if a + r == o + r {
      Cancel(a, o, r);
    }
    assert forall x :: x in a + r ==> x in a || x in r;
  }

  /** A sub-device that cannot be rebuilt, or only on another port, leaves a route behind. */
  lemma LostRelates(last: SubDevice, a: multiset<Route>, o: multiset<Route>, same: bool)
    requires Relate(a, o, same) && last.expose && !(Kept(last) && last.listen > 0)
    ensures Relate(a + AccessRoute(last), o + OpenedOne(last), false)
  {
    var r, a', o' := Route("tcp", last.listen, Target(last)), a + AccessRoute(last), o + OpenedOne(last);
    if Kept(last) {
      assert forall x :: x in a' ==> x in a || x in AccessRoute(last);
      assert o'[r] > 0 && a'[r] == 0;
    } else {
      assert a' == a && |o'| == |o| + 1;
    }
  }

  /** One more sub-device: its route survives exactly when it can be rebuilt. */
  lemma AccessRoutesStep(last: SubDevice, a: multiset<Route>, o: multiset<Route>, same: bool)
    requires Relate(a, o, same)
    ensures Relate(a + AccessRoute(last), o + OpenedOne(last), same && CanRebuild(last))
  {
    if !last.expose {
      ClosedRelates(last, a, o, same);
    } else if Kept(last) && last.listen > 0 {
      RebuiltRelates(last, a, o, same);
    } else {
      LostRelates(last, a, o, same);
    }
  }

  /** Rebuilding preserves the routes of the exposed sub-devices exactly when all can be rebuilt. */
  lemma {:induction false} AccessRoutes(subs: seq<SubDevice>, n: nat)
    requires n <= |subs|
    ensures Relate(Routes(Accesses(subs, n)), Opened(subs, n), Rebuildable(subs, n))
    decreases n
  {
    if n == 0 {
      assert Routes([]) == multiset{};
    } else {
      AccessRoutes(subs, n - 1);
      AccessRoutesLast(subs, n);
      AccessRoutesStep(subs[n - 1], Routes(Accesses(subs, n - 1)), Opened(subs, n - 1), Rebuildable(subs, n - 1));
    }
  }

  /** Migration: on forwards without marks, normalizing and rebuilding asks the agent for the same routes,
      with the same multiplicities, exactly when every sub-device that gets linked has a positive
      port and a positive listen port. */
  lemma MigrationPreservesRoutes(c: Config)
    requires forall k :: 0 <= k < |c.forwards| ==> c.forwards[k].sub == ""
    ensures Routes(Built(Normalized(c)).forwards) == Routes(c.forwards) <==>
            forall j :: 0 <= j < |Normalized(c).subDevices| ==> CanRebuild(Normalized(c).subDevices[j])
  {
    var n := Normalized(c);
    var m := |n.subDevices|;
    BaseIsNamed(c);
    LinkMovesRoutes(Base(c), c.forwards);
    ClearedOpenNothing(Base(c), m);
    var accesses := Accesses(n.subDevices, m);
    RoutesAppend(accesses, FreeOf(n.forwards));
    AccessRoutes(n.subDevices, m);
    RebuildableAll(n.subDevices, m);
    var a, o, free := Routes(accesses), Opened(n.subDevices, m), Routes(FreeOf(n.forwards));
    if a + free == o + free {
      Cancel(a, o, free);
    }
  }
}
