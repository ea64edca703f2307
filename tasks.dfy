/** The task tracker side: finding the task of a case
    (`find_task_by_dossier_number`), the project-membership test
    (`task_is_in_project`) and status reconciliation (the part of
    `process_mails` that reads a task's custom fields, removes satisfied
    "missing document" options and moves the task between sections).

    The tracker is a collaborator: the project's task listing and the task
    details it returns are inputs, its state is the details it holds, and
    every call that changes it is recorded as an `Action`. */
module Tasks {
  import opened Text

  /** The configured identifiers (read from the environment at start-up). */
  datatype Config = Config(
    projectDemandes: string,
    sectionDemandes: string,
    sectionQuitus: string,
    fieldDocs: string,
    fieldDocsQuitus: string,
    optionDemandeImmat: string,
    optionMandat: string,
    optionMandatQuitus: string)

  /** A task of the project listing, with the two fields requested. */
  datatype TaskRef = TaskRef(name: string, gid: string)

  /** One selected option of a multi-enum custom field. */
  datatype EnumOption = EnumOption(gid: string, name: string)

  /** A custom field of a task; `multiEnumValues` is `None` when the field
      carries no `multi_enum_values` entry. */
  datatype CustomField = CustomField(gid: string, multiEnumValues: Option<seq<EnumOption>>)

  /** What `find_by_id` returns with the fields `custom_fields,projects`;
      `projects` is `None` when the entry is missing, and holds the gids of
      the projects otherwise. */
  datatype TaskDetails = TaskDetails(customFields: seq<CustomField>, projects: Option<seq<string>>)

  /** A call that changes the tracker. */
  datatype Action =
    | UpdateTask(task: string, customFields: map<string, seq<string>>)
    | AddTaskForSection(section: string, task: string)

  // ---------------------------------------------------------------------
  // find_task_by_dossier_number

  /** The first task at or after `from` whose name contains `num`. */
  function FirstTaskNamed(tasks: seq<TaskRef>, num: string, from: nat): (r: Option<nat>)
    ensures r.Some? ==> from <= r.value < |tasks| && Contains(tasks[r.value].name, num)
    ensures r.Some? ==> forall j :: from <= j < r.value ==> !Contains(tasks[j].name, num)
    ensures r.None? ==> forall j :: from <= j < |tasks| ==> !Contains(tasks[j].name, num)
    decreases |tasks| - from
  {
    if from >= |tasks| then None
    else if Contains(tasks[from].name, num) then Some(from)
    else FirstTaskNamed(tasks, num, from + 1)
  }

  /** `find_task_by_dossier_number`: the gid of the first listed task whose
      name contains the case number. */
  function FindTaskByDossierNumber(tasks: seq<TaskRef>, num: string): (r: Option<string>)
    ensures r.None? <==> forall j :: 0 <= j < |tasks| ==> !Contains(tasks[j].name, num)
    ensures r.Some? ==>
      exists i ::
        && 0 <= i < |tasks| && Contains(tasks[i].name, num) && r.value == tasks[i].gid
        && forall j :: 0 <= j < i ==> !Contains(tasks[j].name, num)
  {
    match FirstTaskNamed(tasks, num, 0)
    case Some(i) => Some(tasks[i].gid)
    case None => None
  }

  // ---------------------------------------------------------------------
  // task_is_in_project

  /** `any(project['gid'] == gid for project in projects)`. */
  function AnyProjectIs(projects: seq<string>, gid: string): (r: bool)
    ensures r <==> exists i :: 0 <= i < |projects| && projects[i] == gid
  {
    if projects == [] then false
    else projects[0] == gid || AnyProjectIs(projects[1..], gid)
  }

  /** `task_is_in_project`: a missing `projects` entry counts as no project. */
  function TaskIsInProject(details: TaskDetails, projectGid: string): (r: bool)
    ensures r <==> details.projects.Some? && projectGid in details.projects.value
  {
    match details.projects
    case None => false
    case Some(ps) => AnyProjectIs(ps, projectGid)
  }

  // ---------------------------------------------------------------------
  // Reading the current options

  /** `field.get("multi_enum_values", [])`. */
  function SelectedOptions(f: CustomField): seq<EnumOption>
  {
    match f.multiEnumValues
    case None => []
    case Some(opts) => opts
  }

  /** The options the field loop ends with for field id `gid`: each match
      replaces the previous one, so those of the last field with that id,
      and none when no field has it. */
  function LastSelected(fields: seq<CustomField>, gid: string): (r: seq<EnumOption>)
    ensures (forall i :: 0 <= i < |fields| ==> fields[i].gid != gid) ==> r == []
    ensures forall i :: 0 <= i < |fields| && fields[i].gid == gid
              && (forall j :: i < j < |fields| ==> fields[j].gid != gid)
              ==> r == SelectedOptions(fields[i])
  {
    if fields == [] then []
    else if fields[|fields| - 1].gid == gid then SelectedOptions(fields[|fields| - 1])
    else LastSelected(fields[..|fields| - 1], gid)
  }

  /** The field loop of `process_mails`: both `if`s are tested on every
      field. */
  method SelectCurrentOptions(fields: seq<CustomField>, cfg: Config)
    returns (docs: seq<EnumOption>, quitus: seq<EnumOption>)
    ensures docs == LastSelected(fields, cfg.fieldDocs)
    ensures quitus == LastSelected(fields, cfg.fieldDocsQuitus)
  {
    docs, quitus := [], [];
    var i := 0;
    while i < |fields|
      invariant 0 <= i <= |fields|
      invariant docs == LastSelected(fields[..i], cfg.fieldDocs)
      invariant quitus == LastSelected(fields[..i], cfg.fieldDocsQuitus)
    {
      assert fields[..i + 1][..i] == fields[..i];
      if fields[i].gid == cfg.fieldDocs {
        docs := SelectedOptions(fields[i]);
      }
      if fields[i].gid == cfg.fieldDocsQuitus {
        quitus := SelectedOptions(fields[i]);
      }
      i := i + 1;
    }
    assert fields[..i] == fields;
  }

  // ---------------------------------------------------------------------
  // Removing satisfied options

  /** The gids of `opts` whose gid is not in `removed`, in their order. */
  function KeptGids(opts: seq<EnumOption>, removed: set<string>): (r: seq<string>)
    ensures |r| <= |opts|
    ensures forall g :: g in r ==> g !in removed
    ensures forall i :: 0 <= i < |opts| && opts[i].gid !in removed ==> opts[i].gid in r
    ensures forall g :: g in r ==> exists i :: 0 <= i < |opts| && opts[i].gid == g
  {
    if opts == [] then []
    else
      var n := |opts| - 1;
      var init := KeptGids(opts[..n], removed);
      assert forall i :: 0 <= i < n ==> opts[..n][i] == opts[i];
      if opts[n].gid in removed then init else init + [opts[n].gid]
  }

  /** The option loops of `process_mails`: every option whose gid is one of
      `removed` is dropped (the source logs it), every other gid is appended. */
  method FilterOptions(opts: seq<EnumOption>, removed: set<string>) returns (kept: seq<string>)
    ensures kept == KeptGids(opts, removed)
  {
    kept := [];
    var i := 0;
    while i < |opts|
      invariant 0 <= i <= |opts|
      invariant kept == KeptGids(opts[..i], removed)
    {
      assert opts[..i + 1][..i] == opts[..i];
      if opts[i].gid !in removed {
        kept := kept + [opts[i].gid];
      }
      i := i + 1;
    }
    assert opts[..i] == opts;
  }

  /** Filtering keeps the order: filtering a concatenation filters each
      part. */
  lemma {:induction false} KeptGidsAppend(a: seq<EnumOption>, b: seq<EnumOption>, removed: set<string>)
    ensures KeptGids(a + b, removed) == KeptGids(a, removed) + KeptGids(b, removed)
    decreases |b|
  {
    if b != [] {
      var n := |b| - 1;
      assert (a + b)[..|a + b| - 1] == a + b[..n];
      KeptGidsAppend(a, b[..n], removed);
    } else {
      assert a + b == a;
    }
  }

  /** The gids sent for the general field: every current option except the
      registration-request and mandate options. */
  function GeneralRemoved(cfg: Config): set<string>
  {
    {cfg.optionDemandeImmat, cfg.optionMandat}
  }

  /** The gids sent for the secondary (quitus) field: every current option
      except the quitus-mandate option. */
  function QuitusRemoved(cfg: Config): set<string>
  {
    {cfg.optionMandatQuitus}
  }

  // ---------------------------------------------------------------------
  // The update and the section moves

  /** The dictionary passed to `update_task`, for a task whose current
      options are `docs` and `quitus`. */
  function PlannedUpdate(cfg: Config, details: TaskDetails): map<string, seq<string>>
  {
    var docs := KeptGids(LastSelected(details.customFields, cfg.fieldDocs), GeneralRemoved(cfg));
    var quitus := KeptGids(LastSelected(details.customFields, cfg.fieldDocsQuitus), QuitusRemoved(cfg));
    var update := map[cfg.fieldDocs := docs];
    if TaskIsInProject(details, cfg.sectionQuitus) then update[cfg.fieldDocsQuitus := quitus] else update
  }

  /** The tracker calls reconciliation makes, in order. */
  function PlannedActions(cfg: Config, gid: string, details: TaskDetails): seq<Action>
  {
    [UpdateTask(gid, PlannedUpdate(cfg, details)), AddTaskForSection(cfg.sectionDemandes, gid)]
    + if TaskIsInProject(details, cfg.sectionQuitus) then [AddTaskForSection(cfg.sectionQuitus, gid)] else []
  }

  /** The update always names the general field; it names the secondary
      field exactly when the task is listed in the project the membership
      test checks; each list holds exactly the current options that are not
      removed, in their order. */
  lemma UpdateShape(cfg: Config, details: TaskDetails)
    ensures
      var u := PlannedUpdate(cfg, details);
      var inQuitus := TaskIsInProject(details, cfg.sectionQuitus);
      u.Keys == {cfg.fieldDocs} + (if inQuitus then {cfg.fieldDocsQuitus} else {})
    ensures
      cfg.fieldDocs != cfg.fieldDocsQuitus ==>
        (cfg.fieldDocsQuitus in PlannedUpdate(cfg, details) <==> TaskIsInProject(details, cfg.sectionQuitus))
    ensures
      var u := PlannedUpdate(cfg, details);
      var quitus := LastSelected(details.customFields, cfg.fieldDocsQuitus);
      TaskIsInProject(details, cfg.sectionQuitus) ==>
        u[cfg.fieldDocsQuitus] == KeptGids(quitus, QuitusRemoved(cfg))
    ensures
      var u := PlannedUpdate(cfg, details);
      var docs := LastSelected(details.customFields, cfg.fieldDocs);
      !TaskIsInProject(details, cfg.sectionQuitus) || cfg.fieldDocs != cfg.fieldDocsQuitus ==>
        u[cfg.fieldDocs] == KeptGids(docs, GeneralRemoved(cfg))
  {
  }

  /** A task outside the quitus project gets one update and one move into
      the first section; a task inside it gets the update, then the same
      move, then a move into the quitus section. */
  lemma ActionsShape(cfg: Config, gid: string, details: TaskDetails)
    ensures
      var acts := PlannedActions(cfg, gid, details);
      && |acts| == (if TaskIsInProject(details, cfg.sectionQuitus) then 3 else 2)
      && acts[0] == UpdateTask(gid, PlannedUpdate(cfg, details))
      && acts[1] == AddTaskForSection(cfg.sectionDemandes, gid)
      && (|acts| == 3 ==> acts[2] == AddTaskForSection(cfg.sectionQuitus, gid))
  {
  }

  // ---------------------------------------------------------------------
  // The tracker's side of update_task

  /** The selected options of `opts` whose gid is listed in `gids`. */
  function Restrict(opts: seq<EnumOption>, gids: seq<string>): (r: seq<EnumOption>)
    ensures |r| <= |opts|
    ensures forall o :: o in r <==> o in opts && o.gid in gids
  {
    if opts == [] then []
    else
      var n := |opts| - 1;
      Restrict(opts[..n], gids) + if opts[n].gid in gids then [opts[n]] else []
  }

  /** The restriction keeps the order of the selection: restricting a
      concatenation restricts each part. */
  lemma {:induction false} RestrictAppend(a: seq<EnumOption>, b: seq<EnumOption>, gids: seq<string>)
    ensures Restrict(a + b, gids) == Restrict(a, gids) + Restrict(b, gids)
    decreases |b|
  {
    if b != [] {
      var n := |b| - 1;
      assert (a + b)[..|a + b| - 1] == a + b[..n];
      RestrictAppend(a, b[..n], gids);
    } else {
      assert a + b == a;
    }
  }

  /** One field after an update: a field the update names keeps, of its
      selected options, those whose gids are listed. */
  function UpdatedField(f: CustomField, update: map<string, seq<string>>): CustomField
  {
    if f.gid in update then CustomField(f.gid, Some(Restrict(SelectedOptions(f), update[f.gid]))) else f
  }

  /** A task's details after `update_task` with the given fields. Options
      not currently selected are never listed by reconciliation, so only
      removals are modelled. */
  function Updated(details: TaskDetails, update: map<string, seq<string>>): (r: TaskDetails)
    ensures |r.customFields| == |details.customFields| && r.projects == details.projects
  {
    var fs := details.customFields;
    details.(customFields := seq(|fs|, i requires 0 <= i < |fs| => UpdatedField(fs[i], update)))
  }

  /** Reading a field after an update sees the restricted selection. */
  lemma {:induction false} LastSelectedUpdated(details: TaskDetails, update: map<string, seq<string>>, gid: string)
    requires gid in update
    ensures LastSelected(Updated(details, update).customFields, gid)
         == Restrict(LastSelected(details.customFields, gid), update[gid])
    decreases |details.customFields|
  {
    var fs := details.customFields;
    var fs' := Updated(details, update).customFields;
    if fs != [] {
      var n := |fs| - 1;
      var d0 := details.(customFields := fs[..n]);
      assert Updated(d0, update).customFields == fs'[..n];
      if fs[n].gid != gid {
        LastSelectedUpdated(d0, update, gid);
      }
    }
  }

  /** Restricting to gids that are exactly the non-removed ones, then
      filtering again, gives the same gids. */
  lemma {:induction false} KeptAfterRestrict(opts: seq<EnumOption>, gids: seq<string>, removed: set<string>)
    requires forall i :: 0 <= i < |opts| ==> (opts[i].gid in gids <==> opts[i].gid !in removed)
    ensures KeptGids(Restrict(opts, gids), removed) == KeptGids(opts, removed)
    decreases |opts|
  {
    if opts != [] {
      var n := |opts| - 1;
      KeptAfterRestrict(opts[..n], gids, removed);
      var tail := if opts[n].gid in gids then [opts[n]] else [];
      KeptGidsAppend(Restrict(opts[..n], gids), tail, removed);
    }
  }

  /** Reconciliation is idempotent: once the tracker has applied the update,
      reconciling the same task again sends the same calls. A second email
      for the same case therefore changes nothing more. */
  lemma ReconcileIdempotent(cfg: Config, gid: string, details: TaskDetails)
    requires cfg.fieldDocs != cfg.fieldDocsQuitus
    ensures
      var after := Updated(details, PlannedUpdate(cfg, details));
      PlannedActions(cfg, gid, after) == PlannedActions(cfg, gid, details)
  {
    var u := PlannedUpdate(cfg, details);
    var after := Updated(details, u);
    var docs := LastSelected(details.customFields, cfg.fieldDocs);
    var quitus := LastSelected(details.customFields, cfg.fieldDocsQuitus);
    LastSelectedUpdated(details, u, cfg.fieldDocs);
    KeptAfterRestrict(docs, u[cfg.fieldDocs], GeneralRemoved(cfg));
    if TaskIsInProject(details, cfg.sectionQuitus) {
      LastSelectedUpdated(details, u, cfg.fieldDocsQuitus);
      KeptAfterRestrict(quitus, u[cfg.fieldDocsQuitus], QuitusRemoved(cfg));
    }
    assert PlannedUpdate(cfg, after) == u;
  }

  // ---------------------------------------------------------------------
  // The tracker as an object

  /** What the tracker holds: the details of each task, and the calls made
      to it so far. */
  datatype TrackerState = TrackerState(details: map<string, TaskDetails>, actions: seq<Action>)

  /** The state after reconciling task `gid`. */
  function AfterReconcile(cfg: Config, gid: string, st: TrackerState): TrackerState
    requires gid in st.details
  {
    var d := st.details[gid];
    TrackerState(st.details[gid := Updated(d, PlannedUpdate(cfg, d))],
                 st.actions + PlannedActions(cfg, gid, d))
  }

  class Tracker {
    var details: map<string, TaskDetails>
    var actions: seq<Action>

    function State(): TrackerState
      reads this
    {
      TrackerState(details, actions)
    }

    constructor (details: map<string, TaskDetails>)
      ensures State() == TrackerState(details, [])
    {
      this.details := details;
      this.actions := [];
    }

    /** `find_by_id`; `None` stands for the call failing. */
    method FindById(gid: string) returns (r: Option<TaskDetails>)
      ensures r == if gid in details then Some(details[gid]) else None
    {
      r := if gid in details then Some(details[gid]) else None;
    }

    method UpdateTask(gid: string, update: map<string, seq<string>>)
      requires gid in details
      modifies this
      ensures details == old(details)[gid := Updated(old(details)[gid], update)]
      ensures actions == old(actions) + [Action.UpdateTask(gid, update)]
    {
      details := details[gid := Updated(details[gid], update)];
      actions := actions + [Action.UpdateTask(gid, update)];
    }

    method AddTaskForSection(section: string, gid: string)
      modifies this
      ensures details == old(details)
      ensures actions == old(actions) + [Action.AddTaskForSection(section, gid)]
    {
      actions := actions + [Action.AddTaskForSection(section, gid)];
    }
  }

  /** Lines 129-171 of `process_mails` for the task `gid`: fetch its
      details, compute both option lists, send the update, then move the
      task. `found` is false when `find_by_id` fails, which aborts the run
      before anything is sent. */
  method ReconcileTask(tracker: Tracker, cfg: Config, gid: string) returns (found: bool)
    modifies tracker
    ensures found == (gid in old(tracker.details))
    ensures found ==> tracker.State() == AfterReconcile(cfg, gid, old(tracker.State()))
    ensures !found ==> tracker.State() == old(tracker.State())
  {
    var fetched := tracker.FindById(gid);
    if fetched.None? {
      return false;
    }
    var details := fetched.value;
    found := true;
    var currentDocs, currentQuitus := SelectCurrentOptions(details.customFields, cfg);
    var updatedDocs := FilterOptions(currentDocs, GeneralRemoved(cfg));
    var update := map[cfg.fieldDocs := updatedDocs];
    var inQuitus := TaskIsInProject(details, cfg.sectionQuitus);
    if inQuitus {
      var updatedQuitus := FilterOptions(currentQuitus, QuitusRemoved(cfg));
      update := update[cfg.fieldDocsQuitus := updatedQuitus];
    }
    assert update == PlannedUpdate(cfg, details);
    tracker.UpdateTask(gid, update);
    tracker.AddTaskForSection(cfg.sectionDemandes, gid);
    if TaskIsInProject(details, cfg.sectionQuitus) {
      tracker.AddTaskForSection(cfg.sectionQuitus, gid);
    }
  }
}
