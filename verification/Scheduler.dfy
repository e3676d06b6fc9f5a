/** Projects, actions, automations and the cron jobs kept live for them (hub/dashboard/scheduler.go:17-77,
    hub/dashboard/portal.go:336-407, 709-771, 790-868). Each handler is one step. What counts as a cron
    expression and as a known timezone is left to two functions; slugs are those of `Slugs`. */
module Scheduler {
  import opened Common
  import opened Slugs

  datatype Project = Project(name: string, slug: string, timezone: string)

  datatype Action = Action(project: nat, name: string, url: string, agent: bool, device: Option<nat>)

  /** What a client sends for an action. */
  datatype ActionDraft = ActionDraft(name: string, url: string, agent: bool, device: Option<nat>)

  datatype Automation = Automation(project: nat, name: string, enabled: bool, cron: string, action: nat)

  /** What a client sends for an automation. */
  datatype Draft = Draft(name: string, enabled: bool, cron: string, action: nat)

  /** The cron of a project: its timezone and, by automation, the expression of each live job. */
  datatype Cron = Cron(zone: string, jobs: map<nat, string>)

  datatype Failure = Invalid | NotFound | Conflict

  /** The library functions the hub relies on. */
  datatype Library = Library(validCron: string -> bool, knownZone: string -> bool)

  // ----- the database -----

  datatype Database = Database(projects: map<nat, Project>, actions: map<nat, Action>,
                               automations: map<nat, Automation>)

  /** Every row belongs to a stored project and every automation runs an action of its own project; the
      project id 0, which stands for an unknown automation, is never given out. */
  predicate Sound(db: Database) {
    && 0 !in db.projects
    && (forall i :: i in db.actions ==> db.actions[i].project in db.projects)
    && (forall i :: i in db.automations ==>
          && db.automations[i].project in db.projects
          && db.automations[i].action in db.actions
          && db.actions[db.automations[i].action].project == db.automations[i].project)
  }

  predicate Runs(lib: Library, a: Automation, project: nat) {
    a.project == project && a.enabled && lib.validCron(a.cron)
  }

  /** The jobs a project should have: its enabled automations with a valid expression. */
  function JobsOf(lib: Library, db: Database, project: nat): map<nat, string> {
    map i | i in db.automations && Runs(lib, db.automations[i], project) :: db.automations[i].cron
  }

  function ZoneOf(lib: Library, p: Project): string {
    if lib.knownZone(p.timezone) then p.timezone else "UTC"
  }

  /** The scheduler agrees with the database for one project. A project without automations may have no
      entry at all: creating a project does not start a cron. */
  predicate InStep(lib: Library, db: Database, runs: map<nat, Cron>, project: nat) {
    if project !in db.projects then project !in runs
    else if project !in runs then JobsOf(lib, db, project) == map[]
    else runs[project] == Cron(ZoneOf(lib, db.projects[project]), JobsOf(lib, db, project))
  }

  ghost predicate Coherent(lib: Library, db: Database, runs: map<nat, Cron>) {
    Sound(db) && forall p: nat :: InStep(lib, db, runs, p)
  }

  /** The live jobs of the hub: by project and automation, the expression. */
  ghost predicate Live(runs: map<nat, Cron>, project: nat, i: nat, cron: string) {
    project in runs && i in runs[project].jobs && runs[project].jobs[i] == cron
  }

  /** The point of coherence: a job is live exactly when its automation is stored in that project, enabled
      and valid, and then it runs on the stored expression and its action is in the same project. */
  lemma LiveIffStored(lib: Library, db: Database, runs: map<nat, Cron>, project: nat, i: nat, cron: string)
    requires Coherent(lib, db, runs)
    ensures Live(runs, project, i, cron) <==>
            i in db.automations && db.automations[i].project == project && db.automations[i].enabled
              && lib.validCron(cron) && db.automations[i].cron == cron
    ensures Live(runs, project, i, cron) ==>
            project in db.projects && db.automations[i].action in db.actions &&
            db.actions[db.automations[i].action].project == project
  {
    assert InStep(lib, db, runs, project);
    assert i in JobsOf(lib, db, project) <==> i in db.automations && Runs(lib, db.automations[i], project);
  }

  /** A live cron runs in the timezone stored for its project when the library knows it, and else in UTC. */
  lemma LiveZone(lib: Library, db: Database, runs: map<nat, Cron>, project: nat)
    requires Coherent(lib, db, runs) && project in runs
    ensures project in db.projects
    ensures var zone := db.projects[project].timezone;
            runs[project].zone == if lib.knownZone(zone) then zone else "UTC"
  {
    assert InStep(lib, db, runs, project);
  }

  /** Every project is in a timezone that the library knows. */
  predicate KnownZones(lib: Library, db: Database) {
    forall p :: p in db.projects ==> lib.knownZone(db.projects[p].timezone)
  }

  /** Each live cron then runs in the timezone of its own project. */
  lemma LiveInOwnZone(lib: Library, db: Database, runs: map<nat, Cron>, project: nat)
    requires Coherent(lib, db, runs) && KnownZones(lib, db) && project in runs
    ensures project in db.projects && runs[project].zone == db.projects[project].timezone
  {
    LiveZone(lib, db, runs, project);
  }

  /** The rows of a deleted project, and only they, are gone. */
  function Without(db: Database, project: nat): Database {
    Database(db.projects - {project},
             map i | i in db.actions && db.actions[i].project != project :: db.actions[i],
             map i | i in db.automations && db.automations[i].project != project :: db.automations[i])
  }

  /** Putting an automation in a project changes no job elsewhere, unless it was there before. */
  lemma PutElsewhere(lib: Library, db: Database, i: nat, a: Automation, p: nat)
    requires a.project != p && (i in db.automations ==> db.automations[i].project != p)
    ensures JobsOf(lib, db.(automations := db.automations[i := a]), p) == JobsOf(lib, db, p)
  {
  }

  lemma DropElsewhere(lib: Library, db: Database, i: nat, p: nat)
    requires i in db.automations ==> db.automations[i].project != p
    ensures JobsOf(lib, db.(automations := db.automations - {i}), p) == JobsOf(lib, db, p)
  {
  }

  lemma WithoutElsewhere(lib: Library, db: Database, project: nat, p: nat)
    requires p != project
    ensures JobsOf(lib, Without(db, project), p) == JobsOf(lib, db, p)
  {
  }

  lemma NoJobsWithoutProject(lib: Library, db: Database, p: nat)
    requires Sound(db) && p !in db.projects
    ensures JobsOf(lib, db, p) == map[]
  {
  }

  // ----- the hub -----

  class Hub {
    const lib: Library
    var db: Database
    var runs: map<nat, Cron>

    /** A hub that starts on a stored database has no cron yet. */
    constructor (lib: Library, stored: Database)
      ensures this.lib == lib && db == stored && runs == map[]
      ensures stored == Database(map[], map[], map[]) ==> Ready() && OnTime()
    {
      this.lib, db, runs := lib, stored, map[];
    }

    ghost predicate Ready()
      reads this
    {
      Coherent(lib, db, runs)
    }

    /** Each live cron runs in the timezone of its own project, and any that is started will. */
    ghost predicate OnTime()
      reads this
    {
      && KnownZones(lib, db)
      && forall p :: p in runs && p in db.projects ==> runs[p].zone == db.projects[p].timezone
    }

    lemma StaysOnTime()
      requires Ready() && KnownZones(lib, db)
      ensures OnTime()
    {
      forall p | p in runs && p in db.projects ensures runs[p].zone == db.projects[p].timezone {
        LiveInOwnZone(lib, db, runs, p);
      }
    }

    /** The automations of one project, in any order. */
    method ListAutomations(project: nat) returns (ids: seq<nat>)
      ensures forall i :: i in ids <==> i in db.automations && db.automations[i].project == project
    {
      ids := [];
      var left := db.automations.Keys;
      while left != {}
        invariant left <= db.automations.Keys
        invariant forall i :: i in ids <==> i in db.automations && i !in left && db.automations[i].project == project
        decreases left
      {
        var i :| i in left;
        left := left - {i};
        if db.automations[i].project == project {
          ids := ids + [i];
        }
      }
    }

    /** Rebuilds the cron of one project from the database, whatever was live before. */
    method Reload(project: nat)
      modifies this`runs
      ensures runs == if project in db.projects
                      then old(runs)[project := Cron(ZoneOf(lib, db.projects[project]), JobsOf(lib, db, project))]
                      else old(runs) - {project}
      ensures project in db.projects ==>
                && project in runs
                && var zone, jobs := db.projects[project].timezone, runs[project].jobs;
                && runs[project].zone == (if lib.knownZone(zone) then zone else "UTC")
                && (forall i :: i in jobs <==>
                      i in db.automations && db.automations[i].project == project && db.automations[i].enabled
                        && lib.validCron(db.automations[i].cron))
                && (forall i :: i in jobs ==> jobs[i] == db.automations[i].cron)
    {
      if project in runs {
        runs := runs - {project};
      }
      if project !in db.projects {
        return;
      }
      var zone := db.projects[project].timezone;
      if !lib.knownZone(zone) {
        zone := "UTC";
      }
      var ids := ListAutomations(project);
      var jobs := map[];
      for n := 0 to |ids|
        invariant forall i :: i in jobs <==>
                    i in ids[..n] && db.automations[i].enabled && lib.validCron(db.automations[i].cron)
        invariant forall i :: i in jobs ==> jobs[i] == db.automations[i].cron
      {
        var a := db.automations[ids[n]];
        if a.enabled && lib.validCron(a.cron) {
          jobs := jobs[ids[n] := a.cron];
        }
      }
      assert ids[..|ids|] == ids;
      assert jobs == JobsOf(lib, db, project);
      runs := runs[project := Cron(zone, jobs)];
    }

    /** Starts the cron of every project: from any sound database and no cron, the hub is coherent. */
    method ReloadAll()
      requires Sound(db) && runs == map[]
      modifies this`runs
      ensures Ready() && (KnownZones(lib, db) ==> OnTime())
      ensures runs.Keys == db.projects.Keys
    {
      var left := db.projects.Keys;
      while left != {}
        invariant left <= db.projects.Keys
        invariant runs.Keys == db.projects.Keys - left
        invariant forall p :: p in runs ==> runs[p] == Cron(ZoneOf(lib, db.projects[p]), JobsOf(lib, db, p))
        decreases left
      {
        var p :| p in left;
        left := left - {p};
        Reload(p);
      }
      if KnownZones(lib, db) {
        StaysOnTime();
      }
    }

    /** A new project gets no cron: it has no automation to run. */
    method CreateProject(name: string, zone: string) returns (r: Result<nat, Failure>)
      requires Ready()
      modifies this`db
      ensures Ready() && (old(OnTime()) ==> OnTime())
      ensures r.Err? ==> db == old(db)
      ensures r.Ok? ==> r.value !in old(db.projects) &&
                        db == old(db).(projects := old(db.projects)[r.value :=
                                Project(TrimSpace(name), Slug(name), if zone == "" then "America/Toronto" else zone)])
      ensures r.Ok? <==> Slug(name) != "" && lib.knownZone(if zone == "" then "America/Toronto" else zone) &&
                         forall p :: p in old(db.projects) ==> old(db.projects)[p].slug != Slug(name)
    {
      var slug := Slug(name);
      if slug == "" {
        return Err(Invalid);
      }
      var timezone := if zone == "" then "America/Toronto" else zone;
      if !lib.knownZone(timezone) {
        return Err(Invalid);
      }
      if exists p :: p in db.projects && db.projects[p].slug == slug {
        return Err(Conflict);
      }
      var id := FreshId(db.projects.Keys);
      ghost var before := db;
      db := db.(projects := db.projects[id := Project(TrimSpace(name), slug, timezone)]);
      NoJobsWithoutProject(lib, before, id);
      forall p: nat ensures InStep(lib, db, runs, p) {
        assert InStep(lib, before, runs, p);
        assert JobsOf(lib, db, p) == JobsOf(lib, before, p);
      }
      assert InStep(lib, before, runs, id) && id !in runs;
      return Ok(id);
    }

    method UpdateProject(id: nat, name: string, zone: string) returns (r: Result<(), Failure>)
      requires Ready()
      modifies this
      ensures Ready() && (old(OnTime()) ==> OnTime())
      ensures r.Ok? <==> id in old(db.projects) && (zone == "" || lib.knownZone(zone))
      ensures r.Err? ==> db == old(db) && runs == old(runs)
      ensures r.Ok? ==> var p := old(db.projects)[id];
                        db == old(db).(projects := old(db.projects)[id :=
                                Project(if name == "" then p.name else TrimSpace(name), p.slug,
                                        if zone == "" then p.timezone else zone)])
    {
      if id !in db.projects {
        return Err(NotFound);
      }
      var p := db.projects[id];
      if name != "" {
        p := p.(name := TrimSpace(name));
      }
      if zone != "" {
        if !lib.knownZone(zone) {
          return Err(Invalid);
        }
        p := p.(timezone := zone);
      }
      ghost var before, live := db, runs;
      db := db.(projects := db.projects[id := p]);
      Reload(id);
      forall q: nat ensures InStep(lib, db, runs, q) {
        assert InStep(lib, before, live, q);
        assert JobsOf(lib, db, q) == JobsOf(lib, before, q);
      }
      return Ok(());
    }

    method DeleteProject(id: nat) returns (r: Result<(), Failure>)
      requires Ready()
      modifies this
      ensures Ready() && id !in runs && (old(OnTime()) ==> OnTime())
      ensures r.Ok? <==> id in old(db.projects)
      ensures db == if r.Ok? then Without(old(db), id) else old(db)
      ensures db.projects == old(db.projects) - {id}
      ensures forall i :: i in db.actions <==> i in old(db.actions) && old(db.actions)[i].project != id
      ensures forall i :: i in db.automations <==> i in old(db.automations) && old(db.automations)[i].project != id
      ensures forall i :: i in db.actions ==> db.actions[i] == old(db.actions)[i]
      ensures forall i :: i in db.automations ==> db.automations[i] == old(db.automations)[i]
    {
      if id !in db.projects {
        assert InStep(lib, db, runs, id) && db.projects - {id} == db.projects;
        return Err(NotFound);
      }
      ghost var before, live := db, runs;
      db := Without(db, id);
      Reload(id);
      forall q: nat ensures InStep(lib, db, runs, q) {
        assert InStep(lib, before, live, q);
        if q != id {
          WithoutElsewhere(lib, before, id, q);
        }
      }
      return Ok(());
    }

    method SaveAction(project: nat, d: ActionDraft) returns (r: Result<nat, Failure>)
      requires Ready()
      modifies this`db
      ensures Ready() && (old(OnTime()) ==> OnTime())
      ensures r.Ok? <==> project in old(db.projects) && TrimSpace(d.name) != "" && d.url != "" &&
                         (d.agent ==> d.device.Some?)
      ensures r.Err? ==> db == old(db)
      ensures r.Ok? ==> r.value !in old(db.actions) &&
                        db == old(db).(actions := old(db.actions)[r.value :=
                                Action(project, TrimSpace(d.name), d.url, d.agent,
                                       if d.agent then d.device else None)])
    {
      if project !in db.projects {
        return Err(NotFound);
      }
      if !Complete(d) {
        return Err(Invalid);
      }
      var id := FreshId(db.actions.Keys);
      ghost var before := db;
      db := db.(actions := db.actions[id := StoredAction(project, d)]);
      KeepsJobs(before);
      return Ok(id);
    }

    /** An action stays in its project. */
    method UpdateAction(id: nat, d: ActionDraft) returns (r: Result<(), Failure>)
      requires Ready()
      modifies this`db
      ensures Ready() && (old(OnTime()) ==> OnTime())
      ensures r.Ok? <==> id in old(db.actions) && TrimSpace(d.name) != "" && d.url != "" &&
                         (d.agent ==> d.device.Some?)
      ensures r.Err? ==> db == old(db)
      ensures r.Ok? ==> var project := old(db.actions)[id].project;
                        db == old(db).(actions := old(db.actions)[id :=
                                Action(project, TrimSpace(d.name), d.url, d.agent,
                                       if d.agent then d.device else None)])
    {
      if id !in db.actions {
        return Err(NotFound);
      }
      if !Complete(d) {
        return Err(Invalid);
      }
      ghost var before := db;
      db := db.(actions := db.actions[id := StoredAction(db.actions[id].project, d)]);
      KeepsJobs(before);
      return Ok(());
    }

    /** An action that an automation still runs is not deleted. */
    method DeleteAction(id: nat) returns (r: Result<(), Failure>)
      requires Ready()
      modifies this`db
      ensures Ready() && (old(OnTime()) ==> OnTime())
      ensures r == Err(Conflict) <==> exists i :: i in old(db.automations) && old(db.automations)[i].action == id
      ensures db == if r.Ok? then old(db).(actions := old(db.actions) - {id}) else old(db)
      ensures r.Ok? || r == Err(Conflict)
    {
      if exists i :: i in db.automations && db.automations[i].action == id {
        return Err(Conflict);
      }
      ghost var before := db;
      db := db.(actions := db.actions - {id});
      KeepsJobs(before);
      return Ok(());
    }

    lemma KeepsJobs(before: Database)
      requires Coherent(lib, before, runs)
      requires db.projects == before.projects && db.automations == before.automations
      ensures forall p: nat :: InStep(lib, db, runs, p)
    {
      forall p: nat ensures InStep(lib, db, runs, p) {
        assert InStep(lib, before, runs, p);
        assert JobsOf(lib, db, p) == JobsOf(lib, before, p);
      }
    }

    /** Accepts an automation with a name, a valid expression and an action of its own project. */
    predicate Accepts(d: Draft, project: nat)
      reads this
    {
      && TrimSpace(d.name) != "" && lib.validCron(TrimSpace(d.cron))
      && d.action in db.actions && db.actions[d.action].project == project
    }

    method SaveAutomation(project: nat, d: Draft) returns (r: Result<nat, Failure>)
      requires Ready()
      modifies this
      ensures Ready() && (old(OnTime()) ==> OnTime())
      ensures r.Ok? <==> project in old(db.projects) && TrimSpace(d.name) != "" && lib.validCron(TrimSpace(d.cron)) &&
                         d.action in old(db.actions) && old(db.actions)[d.action].project == project
      ensures r.Err? ==> db == old(db) && runs == old(runs)
      ensures r.Ok? ==> r.value !in old(db.automations) &&
                        db == old(db).(automations := old(db.automations)[r.value :=
                                Automation(project, TrimSpace(d.name), d.enabled, TrimSpace(d.cron), d.action)])
    {
      if project !in db.projects {
        return Err(NotFound);
      }
      if !Accepts(d, project) {
        return Err(Invalid);
      }
      var id := FreshId(db.automations.Keys);
      ghost var before, live := db, runs;
      db := db.(automations := db.automations[id := Stored(project, d)]);
      Reload(project);
      forall p: nat ensures InStep(lib, db, runs, p) {
        assert InStep(lib, before, live, p);
        if p != project {
          PutElsewhere(lib, before, id, Stored(project, d), p);
        }
      }
      return Ok(id);
    }

    method UpdateAutomation(id: nat, d: Draft) returns (r: Result<(), Failure>)
      requires Ready()
      modifies this
      ensures Ready() && (old(OnTime()) ==> OnTime())
      ensures r.Ok? <==> id in old(db.automations) && TrimSpace(d.name) != "" && lib.validCron(TrimSpace(d.cron)) &&
                         d.action in old(db.actions) &&
                         old(db.actions)[d.action].project == old(db.automations)[id].project
      ensures r.Err? ==> db == old(db) && runs == old(runs)
      ensures r.Ok? ==> var project := old(db.automations)[id].project;
                        db == old(db).(automations := old(db.automations)[id :=
                                Automation(project, TrimSpace(d.name), d.enabled, TrimSpace(d.cron), d.action)])
    {
      if id !in db.automations {
        return Err(NotFound);
      }
      var project := db.automations[id].project;
      if !Accepts(d, project) {
        return Err(Invalid);
      }
      ghost var before, live := db, runs;
      db := db.(automations := db.automations[id := Stored(project, d)]);
      Reload(project);
      forall p: nat ensures InStep(lib, db, runs, p) {
        assert InStep(lib, before, live, p);
        if p != project {
          PutElsewhere(lib, before, id, Stored(project, d), p);
        }
      }
      return Ok(());
    }

    /** An unknown automation reads as one of project 0, which is reloaded for nothing. */
    method DeleteAutomation(id: nat)
      requires Ready()
      modifies this
      ensures Ready() && (old(OnTime()) ==> OnTime())
      ensures db == old(db).(automations := old(db.automations) - {id})
      ensures id !in old(db.automations) ==> runs == old(runs)
    {
      var project := if id in db.automations then db.automations[id].project else 0;
      ghost var before, live := db, runs;
      db := db.(automations := db.automations - {id});
      Reload(project);
      forall p: nat ensures InStep(lib, db, runs, p) {
        assert InStep(lib, before, live, p);
        if p != project {
          DropElsewhere(lib, before, id, p);
        }
      }
      assert InStep(lib, before, live, 0);
    }

    /** A cron job fires: it looks its automation up again. In a coherent hub a live job always finds it, and
        an action of its own project to run. */
    method RunAutomation(id: nat) returns (action: Option<nat>)
      ensures action == if id in db.automations && db.automations[id].enabled
                        then Some(db.automations[id].action) else None
      ensures Ready() ==> forall p, cron :: Live(runs, p, id, cron) ==>
                            action.Some? && action.value in db.actions && db.actions[action.value].project == p
    {
      forall p, cron | Ready() && Live(runs, p, id, cron)
        ensures id in db.automations && Runs(lib, db.automations[id], p) && db.automations[id].action in db.actions
        ensures db.actions[db.automations[id].action].project == p
      {
        LiveIffStored(lib, db, runs, p, id, cron);
      }
      if id !in db.automations || !db.automations[id].enabled {
        return None;
      }
      return Some(db.automations[id].action);
    }
  }

  /** The row of an action as the hub stores it. */
  function StoredAction(project: nat, d: ActionDraft): Action {
    Action(project, TrimSpace(d.name), d.url, d.agent, if d.agent then d.device else None)
  }

  /** A name, an address and, for an action that an agent runs, a device. */
  predicate Complete(d: ActionDraft) {
    TrimSpace(d.name) != "" && d.url != "" && (d.agent ==> d.device.Some?)
  }

  /** The row of an automation as the hub stores it. */
  function Stored(project: nat, d: Draft): Automation {
    Automation(project, TrimSpace(d.name), d.enabled, TrimSpace(d.cron), d.action)
  }

  /** An identifier above all those in use, as the database gives them. */
  method FreshId(used: set<nat>) returns (id: nat)
    ensures id > 0 && forall i :: i in used ==> i < id
  {
    id := 1;
    var left := used;
    while left != {}
      invariant left <= used && id > 0 && forall i :: i in used && i !in left ==> i < id
      decreases left
    {
      var i :| i in left;
      left := left - {i};
      if i >= id {
        id := i + 1;
      }
    }
  }
}
