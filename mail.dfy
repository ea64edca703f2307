/** The per-message procedure of `process_mails` and the batch loop around
    it. The mailbox, the shared drive and the tracker are objects whose
    methods stand for the calls the source makes on them; `Step`, `Batch`
    and `Run` say, as functions of data, what processing one message and the
    whole inbox does to them. */
module Mail {
  import opened Text
  import opened Dossier
  import opened Folders
  import opened Tasks

  /** A part of a message, in `message.walk()` order, with what the
      email library reports about it. `filename` is `get_filename()`,
      `decodedFilename` its decoding by `decode_mime_words`, and `payload`
      `get_payload(decode=True)`. */
  datatype Part = Part(
    isMultipart: bool,
    hasDisposition: bool,
    filename: Option<string>,
    decodedFilename: string,
    payload: Bytes)

  /** A fetched message: its mailbox identifier, its decoded subject and
      its parts. */
  datatype Message = Message(id: nat, subject: string, parts: seq<Part>)

  /** The inputs of a run besides the mailbox: the configuration, the base
      directory and its tree, and the task listing of the project. */
  datatype Env = Env(cfg: Config, basePath: string, base: Dir, projectTasks: seq<TaskRef>)

  /** What happened to one message. `Aborted` is a failed `find_by_id`: the
      exception ends the run. */
  datatype Outcome =
    | NoCaseNumber
    | NoFolder(num: string)
    | NoAttachment(num: string, folder: string)
    | NoTask(num: string, folder: string)
    | Reconciled(num: string, folder: string, task: string)
    | Aborted(num: string, folder: string, task: string)

  /** The outcomes after which the message is flagged `\Deleted`. */
  predicate Deletes(o: Outcome)
  {
    o.NoAttachment? || o.Reconciled?
  }

  /** The state of the three collaborators: the ids flagged `\Deleted`, the
      ids purged by an expunge, the files of the drive and the tracker. */
  datatype State = State(flagged: set<nat>, purged: set<nat>, files: map<string, Bytes>, tracker: TrackerState)

  // ---------------------------------------------------------------------
  // Attachments

  /** A part the attachment loop saves: not a container, with a
      Content-Disposition header and a non-empty file name. */
  predicate IsAttachment(p: Part)
  {
    !p.isMultipart && p.hasDisposition && p.filename.Some? && p.filename.value != ""
  }

  function HasAttachment(parts: seq<Part>): (r: bool)
    ensures r <==> exists i :: 0 <= i < |parts| && IsAttachment(parts[i])
  {
    if parts == [] then false
    else
      var n := |parts| - 1;
      assert forall i :: 0 <= i < n ==> parts[..n][i] == parts[i];
      HasAttachment(parts[..n]) || IsAttachment(parts[n])
  }

  /** The file part `p` is written to, if it is an attachment. */
  ghost predicate WritesTo(folder: string, p: Part, path: string)
  {
    IsAttachment(p) && Join(folder, p.decodedFilename) == path
  }

  /** The drive after the attachment loop has written every attachment of
      `parts`, in order, into `folder`. */
  function SaveAll(files: map<string, Bytes>, folder: string, parts: seq<Part>): map<string, Bytes>
  {
    if parts == [] then files
    else
      var n := |parts| - 1;
      var saved := SaveAll(files, folder, parts[..n]);
      if IsAttachment(parts[n]) then saved[Join(folder, parts[n].decodedFilename) := parts[n].payload]
      else saved
  }

  /** A path is on the drive after the attachment loop exactly when it was
      there before or some attachment is written to it. */
  lemma {:induction false} SaveAllKeys(files: map<string, Bytes>, folder: string, parts: seq<Part>, path: string)
    ensures path in SaveAll(files, folder, parts) <==>
      path in files || exists i :: 0 <= i < |parts| && WritesTo(folder, parts[i], path)
    decreases |parts|
  {
    if parts != [] {
      var n := |parts| - 1;
      SaveAllKeys(files, folder, parts[..n], path);
      assert forall i :: 0 <= i < n ==> parts[..n][i] == parts[i];
    }
  }

  /** The last attachment written to a path decides its contents. */
  lemma {:induction false} SaveAllLastWins(files: map<string, Bytes>, folder: string, parts: seq<Part>, path: string, i: nat)
    requires i < |parts| && WritesTo(folder, parts[i], path)
    requires forall j :: i < j < |parts| ==> !WritesTo(folder, parts[j], path)
    ensures path in SaveAll(files, folder, parts) && SaveAll(files, folder, parts)[path] == parts[i].payload
    decreases |parts|
  {
    var n := |parts| - 1;
    var saved := SaveAll(files, folder, parts[..n]);
    if i < n {
      assert !WritesTo(folder, parts[n], path);
      assert forall j :: i < j < n ==> parts[..n][j] == parts[j];
      SaveAllLastWins(files, folder, parts[..n], path, i);
      assert SaveAll(files, folder, parts)[path] == saved[path];
    } else {
      assert SaveAll(files, folder, parts) == saved[path := parts[n].payload];
    }
  }

  /** A path no attachment is written to keeps its contents. */
  lemma {:induction false} SaveAllUntouched(files: map<string, Bytes>, folder: string, parts: seq<Part>, path: string)
    requires forall i :: 0 <= i < |parts| ==> !WritesTo(folder, parts[i], path)
    requires path in files
    ensures path in SaveAll(files, folder, parts) && SaveAll(files, folder, parts)[path] == files[path]
    decreases |parts|
  {
    if parts != [] {
      var n := |parts| - 1;
      assert forall i :: 0 <= i < n ==> parts[..n][i] == parts[i];
      SaveAllUntouched(files, folder, parts[..n], path);
    }
  }

  /** What the drive holds at `path` once the attachments are written: the
      payload of the last attachment written there (a later part with the
      same name overwrites an earlier one), otherwise what was there before. */
  lemma SaveAllAt(files: map<string, Bytes>, folder: string, parts: seq<Part>, path: string)
    ensures path in SaveAll(files, folder, parts) <==>
      path in files || exists i :: 0 <= i < |parts| && WritesTo(folder, parts[i], path)
    ensures forall i :: 0 <= i < |parts| && WritesTo(folder, parts[i], path)
              && (forall j :: i < j < |parts| ==> !WritesTo(folder, parts[j], path))
              ==> SaveAll(files, folder, parts)[path] == parts[i].payload
    ensures
      (forall i :: 0 <= i < |parts| ==> !WritesTo(folder, parts[i], path)) && path in files ==>
        SaveAll(files, folder, parts)[path] == files[path]
  {
    SaveAllKeys(files, folder, parts, path);
    forall i | 0 <= i < |parts| && WritesTo(folder, parts[i], path)
               && (forall j :: i < j < |parts| ==> !WritesTo(folder, parts[j], path))
      ensures SaveAll(files, folder, parts)[path] == parts[i].payload
    {
      SaveAllLastWins(files, folder, parts, path, i);
    }
    if (forall i :: 0 <= i < |parts| ==> !WritesTo(folder, parts[i], path)) && path in files {
      SaveAllUntouched(files, folder, parts, path);
    }
  }

  /** Without attachments the drive is left as it was. */
  lemma {:induction false} SaveAllWithoutAttachments(files: map<string, Bytes>, folder: string, parts: seq<Part>)
    requires !HasAttachment(parts)
    ensures SaveAll(files, folder, parts) == files
    decreases |parts|
  {
    if parts != [] {
      SaveAllWithoutAttachments(files, folder, parts[..|parts| - 1]);
    }
  }

  /** `os.path.join` lets an absolute file name replace the folder: such an
      attachment is written outside the case folder, at the name itself. */
  lemma AbsoluteNameLeavesFolder(files: map<string, Bytes>, folder: string, p: Part)
    requires IsAttachment(p) && |p.decodedFilename| > 0 && p.decodedFilename[0] == '/'
    ensures SaveAll(files, folder, [p]) == files[p.decodedFilename := p.payload]
  {
    assert [p][..0] == [];
  }

  // ---------------------------------------------------------------------
  // The collaborators as objects

  class Mailbox {
    var flagged: set<nat>
    var purged: set<nat>

    constructor (flagged: set<nat>)
      ensures this.flagged == flagged && purged == {}
    {
      this.flagged := flagged;
      this.purged := {};
    }

    /** `store(id, '+FLAGS', '\\Deleted')`. */
    method Store(id: nat)
      modifies this
      ensures flagged == old(flagged) + {id} && purged == old(purged)
    {
      flagged := flagged + {id};
    }

    /** `expunge()`: every flagged message is removed. */
    method Expunge()
      modifies this
      ensures purged == old(purged) + old(flagged) && flagged == {}
    {
      purged := purged + flagged;
      flagged := {};
    }
  }

  class Drive {
    var files: map<string, Bytes>

    constructor (files: map<string, Bytes>)
      ensures this.files == files
    {
      this.files := files;
    }

    /** `open(path, 'wb').write(data)`: creates or overwrites the file. */
    method Write(path: string, data: Bytes)
      modifies this
      ensures files == old(files)[path := data]
    {
      files := files[path := data];
    }
  }

  function Snapshot(mailbox: Mailbox, drive: Drive, tracker: Tracker): State
    reads mailbox, drive, tracker
  {
    State(mailbox.flagged, mailbox.purged, drive.files, tracker.State())
  }

  /** The attachment loop (lines 103-117): writes every attachment into
      `folder` and reports whether there was one. */
  method SaveAttachments(drive: Drive, folder: string, parts: seq<Part>) returns (hasAttachment: bool)
    modifies drive
    ensures hasAttachment == HasAttachment(parts)
    ensures drive.files == SaveAll(old(drive.files), folder, parts)
  {
    hasAttachment := false;
    var i := 0;
    while i < |parts|
      invariant 0 <= i <= |parts|
      invariant hasAttachment == HasAttachment(parts[..i])
      invariant drive.files == SaveAll(old(drive.files), folder, parts[..i])
    {
      assert parts[..i + 1][..i] == parts[..i];
      var part := parts[i];
      if IsAttachment(part) {
        hasAttachment := true;
        drive.Write(Join(folder, part.decodedFilename), part.payload);
      }
      i := i + 1;
    }
    assert parts[..i] == parts;
  }

  // ---------------------------------------------------------------------
  // One message

  /** Processing message `m` (lines 83-175): the outcome and the new state. */
  function Step(env: Env, st: State, m: Message): (Outcome, State)
  {
    match ExtractDossierNum(m.subject)
    case None => (NoCaseNumber, st)
    case Some(num) =>
      match FindDossierPath(env.basePath, env.base, num)
      case None => (NoFolder(num), st)
      case Some(folder) =>
        var saved := st.(files := SaveAll(st.files, folder, m.parts));
        if !HasAttachment(m.parts) then
          (NoAttachment(num, folder), saved.(flagged := st.flagged + {m.id}))
        else
          match FindTaskByDossierNumber(env.projectTasks, num)
          case None => (NoTask(num, folder), saved)
          case Some(gid) =>
            if gid == "" then (NoTask(num, folder), saved)
            else if gid !in st.tracker.details then (Aborted(num, folder, gid), saved)
            else (Reconciled(num, folder, gid),
                  saved.(tracker := AfterReconcile(env.cfg, gid, st.tracker), flagged := st.flagged + {m.id}))
  }

  /** The body of the loop over `email_ids`, for the message `m`. */
  method ProcessMessage(env: Env, mailbox: Mailbox, drive: Drive, tracker: Tracker, m: Message)
    returns (outcome: Outcome)
    modifies mailbox, drive, tracker
    ensures (outcome, Snapshot(mailbox, drive, tracker)) == Step(env, old(Snapshot(mailbox, drive, tracker)), m)
  {
    var dossierNum := ExtractDossierNum(m.subject);
    if dossierNum.None? {
      return NoCaseNumber;
    }
    var num := dossierNum.value;
    var dossierPath := FindDossierPath(env.basePath, env.base, num);
    if dossierPath.None? {
      return NoFolder(num);
    }
    var folder := dossierPath.value;
    var hasAttachment := SaveAttachments(drive, folder, m.parts);
    if !hasAttachment {
      mailbox.Store(m.id);
      return NoAttachment(num, folder);
    }
    var taskGid := FindTaskByDossierNumber(env.projectTasks, num);
    if taskGid.None? || taskGid.value == "" {
      return NoTask(num, folder);
    }
    var gid := taskGid.value;
    var found := ReconcileTask(tracker, env.cfg, gid);
    if !found {
      return Aborted(num, folder, gid);
    }
    mailbox.Store(m.id);
    outcome := Reconciled(num, folder, gid);
  }

  // ---------------------------------------------------------------------
  // The batch

  /** The loop over the messages: each is processed in order, and an
      aborted message ends the loop. */
  function Batch(env: Env, st: State, msgs: seq<Message>): (seq<Outcome>, State)
    decreases |msgs|
  {
    if msgs == [] then ([], st)
    else
      var first := Step(env, st, msgs[0]);
      if first.0.Aborted? then ([first.0], first.1)
      else
        var rest := Batch(env, first.1, msgs[1..]);
        ([first.0] + rest.0, rest.1)
  }

  /** No outcome is an abort. */
  predicate Completed(outcomes: seq<Outcome>)
  {
    forall o :: o in outcomes ==> !o.Aborted?
  }

  /** `process_mails`: the batch, then one expunge if the batch was not
      aborted. */
  function Run(env: Env, st: State, msgs: seq<Message>): (seq<Outcome>, State)
  {
    var b := Batch(env, st, msgs);
    if Completed(b.0) then
      (b.0, b.1.(purged := b.1.purged + b.1.flagged, flagged := {}))
    else b
  }

  /** `process_mails` for the messages `msgs`, as returned by the search,
      in order. */
  method ProcessMails(env: Env, mailbox: Mailbox, drive: Drive, tracker: Tracker, msgs: seq<Message>)
    returns (outcomes: seq<Outcome>)
    modifies mailbox, drive, tracker
    ensures (outcomes, Snapshot(mailbox, drive, tracker)) == Run(env, old(Snapshot(mailbox, drive, tracker)), msgs)
  {
    ghost var start := Snapshot(mailbox, drive, tracker);
    outcomes := [];
    var i := 0;
    assert msgs[i..] == msgs;
    assert [] + Batch(env, start, msgs).0 == Batch(env, start, msgs).0;
    while i < |msgs|
      invariant 0 <= i <= |msgs|
      invariant Completed(outcomes)
      invariant
        var rest := Batch(env, Snapshot(mailbox, drive, tracker), msgs[i..]);
        Batch(env, start, msgs) == (outcomes + rest.0, rest.1)
    {
      ghost var before := Snapshot(mailbox, drive, tracker);
      assert msgs[i..][0] == msgs[i] && msgs[i..][1..] == msgs[i + 1..];
      var outcome := ProcessMessage(env, mailbox, drive, tracker, msgs[i]);
      ghost var rest := Batch(env, Snapshot(mailbox, drive, tracker), msgs[i + 1..]);
      if outcome.Aborted? {
        assert Batch(env, before, msgs[i..]) == ([outcome], Snapshot(mailbox, drive, tracker));
        outcomes := outcomes + [outcome];
        assert outcomes[|outcomes| - 1].Aborted?;
        return;
      }
      assert Batch(env, before, msgs[i..]) == ([outcome] + rest.0, rest.1);
      assert outcomes + ([outcome] + rest.0) == (outcomes + [outcome]) + rest.0;
      outcomes := outcomes + [outcome];
      i := i + 1;
    }
    assert msgs[i..] == [];
    assert outcomes + [] == outcomes;
    mailbox.Expunge();
  }

  // ---------------------------------------------------------------------
  // What one message does

  /** The task lookup for `num` yields a gid that counts as found: present
      and non-empty (`if not task_gid` treats an empty gid as missing). */
  predicate TaskFound(tasks: seq<TaskRef>, num: string)
  {
    var t := FindTaskByDossierNumber(tasks, num);
    t.Some? && t.value != ""
  }

  /** Deletion rule: a message is flagged exactly when a case number and a
      folder were found and then either it had no attachment, or a task was
      found and reconciled. Nothing is purged while messages are processed. */
  lemma DispositionRule(env: Env, st: State, m: Message)
    ensures
      var r := Step(env, st, m);
      var num := ExtractDossierNum(m.subject);
      Deletes(r.0) <==>
        && num.Some?
        && FindDossierPath(env.basePath, env.base, num.value).Some?
        && (!HasAttachment(m.parts)
            || (TaskFound(env.projectTasks, num.value)
                && FindTaskByDossierNumber(env.projectTasks, num.value).value in st.tracker.details))
    ensures
      var r := Step(env, st, m);
      r.1.flagged == st.flagged + (if Deletes(r.0) then {m.id} else {}) && r.1.purged == st.purged
  {
  }

  /** Without a case number, or without a folder, a message is skipped: no
      file is written, no tracker call is made, and it stays in the inbox. */
  lemma SkippedWithoutCaseOrFolder(env: Env, st: State, m: Message)
    requires
      var num := ExtractDossierNum(m.subject);
      num.None? || FindDossierPath(env.basePath, env.base, num.value).None?
    ensures Step(env, st, m).1 == st
    ensures Step(env, st, m).0.NoCaseNumber? || Step(env, st, m).0.NoFolder?
  {
  }

  /** A message with a folder but no attachment is deleted without writing
      a file and without calling the tracker. */
  lemma AttachmentLessIsDeletedOnly(env: Env, st: State, m: Message)
    requires
      var num := ExtractDossierNum(m.subject);
      num.Some? && FindDossierPath(env.basePath, env.base, num.value).Some?
    requires !HasAttachment(m.parts)
    ensures Step(env, st, m).0.NoAttachment?
    ensures Step(env, st, m).1 == st.(flagged := st.flagged + {m.id})
  {
    var folder := FindDossierPath(env.basePath, env.base, ExtractDossierNum(m.subject).value).value;
    SaveAllWithoutAttachments(st.files, folder, m.parts);
  }

  /** A message with attachments for which no task is found keeps its
      written files, makes no tracker call and stays in the inbox. */
  lemma FilesStayWithoutTask(env: Env, st: State, m: Message)
    requires
      var num := ExtractDossierNum(m.subject);
      num.Some? && FindDossierPath(env.basePath, env.base, num.value).Some?
      && HasAttachment(m.parts) && !TaskFound(env.projectTasks, num.value)
    ensures
      var num := ExtractDossierNum(m.subject).value;
      var folder := FindDossierPath(env.basePath, env.base, num).value;
      Step(env, st, m) == (NoTask(num, folder), st.(files := SaveAll(st.files, folder, m.parts)))
  {
  }

  /** A reconciled message carries the case number of its subject, the
      folder found for it and the task found for it; its attachments were
      written into that folder, the tracker was reconciled for that task,
      and the message is flagged. */
  lemma ReconciledEffects(env: Env, st: State, m: Message)
    ensures
      var r := Step(env, st, m);
      r.0.Reconciled? ==>
      && ExtractDossierNum(m.subject) == Some(r.0.num)
      && FindDossierPath(env.basePath, env.base, r.0.num) == Some(r.0.folder)
      && FindTaskByDossierNumber(env.projectTasks, r.0.num) == Some(r.0.task)
      && HasAttachment(m.parts)
      && r.0.task in st.tracker.details
      && r.1.files == SaveAll(st.files, r.0.folder, m.parts)
      && r.1.tracker == AfterReconcile(env.cfg, r.0.task, st.tracker)
      && r.1.tracker.actions == st.tracker.actions + PlannedActions(env.cfg, r.0.task, st.tracker.details[r.0.task])
      && r.1.flagged == st.flagged + {m.id}
      && r.1.purged == st.purged
  {
    if Step(env, st, m).0.Reconciled? {
      var num := ExtractDossierNum(m.subject);
      assert num.Some?;
      var folder := FindDossierPath(env.basePath, env.base, num.value);
      assert folder.Some?;
      assert HasAttachment(m.parts);
      var task := FindTaskByDossierNumber(env.projectTasks, num.value);
      assert task.Some? && task.value != "" && task.value in st.tracker.details;
      assert Step(env, st, m).0 == Reconciled(num.value, folder.value, task.value);
    }
  }

  /** A message whose task the tracker cannot fetch keeps the files already
      written into its folder, leaves the tracker untouched and stays
      unflagged; the run ends with it. */
  lemma AbortedEffects(env: Env, st: State, m: Message)
    ensures
      var r := Step(env, st, m);
      r.0.Aborted? ==>
      && ExtractDossierNum(m.subject) == Some(r.0.num)
      && FindDossierPath(env.basePath, env.base, r.0.num) == Some(r.0.folder)
      && FindTaskByDossierNumber(env.projectTasks, r.0.num) == Some(r.0.task)
      && HasAttachment(m.parts)
      && r.0.task !in st.tracker.details
      && r.1 == st.(files := SaveAll(st.files, r.0.folder, m.parts))
  {
    if Step(env, st, m).0.Aborted? {
      var num := ExtractDossierNum(m.subject);
      assert num.Some?;
      var folder := FindDossierPath(env.basePath, env.base, num.value);
      assert folder.Some?;
      assert HasAttachment(m.parts);
      var task := FindTaskByDossierNumber(env.projectTasks, num.value);
      assert task.Some? && task.value != "" && task.value !in st.tracker.details;
      assert Step(env, st, m).0 == Aborted(num.value, folder.value, task.value);
    }
  }

  // ---------------------------------------------------------------------
  // The whole run

  /** The ids of the messages whose outcome flags them. */
  function FlaggedIds(msgs: seq<Message>, outcomes: seq<Outcome>): set<nat>
  {
    set i | 0 <= i < |outcomes| && i < |msgs| && Deletes(outcomes[i]) :: msgs[i].id
  }

  /** The batch processes the messages in order: the outcome of message `i`
      is that of `Step` in the state left by the messages before it, only
      the last outcome can be an abort, and all messages are processed
      unless one aborts. */
  lemma {:induction false} BatchInOrder(env: Env, st: State, msgs: seq<Message>, i: nat)
    requires i < |Batch(env, st, msgs).0|
    ensures i < |msgs|
    ensures Batch(env, st, msgs).0[i] == Step(env, Batch(env, st, msgs[..i]).1, msgs[i]).0
    ensures Batch(env, st, msgs).0[i].Aborted? ==> i == |Batch(env, st, msgs).0| - 1
    ensures Completed(Batch(env, st, msgs).0) ==> |Batch(env, st, msgs).0| == |msgs|
    decreases |msgs|
  {
    BatchLength(env, st, msgs);
    var first := Step(env, st, msgs[0]);
    if i > 0 {
      assert msgs[..i][0] == msgs[0] && msgs[..i][1..] == msgs[1..][..i - 1];
      BatchInOrder(env, first.1, msgs[1..], i - 1);
    } else {
      assert msgs[..0] == [];
    }
  }

  /** A batch without an abort has one outcome per message. */
  lemma {:induction false} BatchLength(env: Env, st: State, msgs: seq<Message>)
    ensures |Batch(env, st, msgs).0| <= |msgs|
    ensures Completed(Batch(env, st, msgs).0) ==> |Batch(env, st, msgs).0| == |msgs|
    decreases |msgs|
  {
    if msgs != [] {
      var first := Step(env, st, msgs[0]);
      BatchLength(env, first.1, msgs[1..]);
    }
  }

  /** The flagged ids of a batch split into those of its first message
      and those of the others. */
  lemma FlaggedIdsCons(msgs: seq<Message>, o: Outcome, os: seq<Outcome>)
    requires msgs != []
    ensures FlaggedIds(msgs, [o] + os) ==
      (if Deletes(o) then {msgs[0].id} else {}) + FlaggedIds(msgs[1..], os)
  {
    var all := [o] + os;
    forall id | id in FlaggedIds(msgs, all)
      ensures id in (if Deletes(o) then {msgs[0].id} else {}) + FlaggedIds(msgs[1..], os)
    {
      var k :| 0 <= k < |all| && k < |msgs| && Deletes(all[k]) && msgs[k].id == id;
      if k > 0 {
        assert all[k] == os[k - 1] && msgs[k] == msgs[1..][k - 1];
      }
    }
    forall id | id in FlaggedIds(msgs[1..], os)
      ensures id in FlaggedIds(msgs, all)
    {
      var k :| 0 <= k < |os| && k < |msgs[1..]| && Deletes(os[k]) && msgs[1..][k].id == id;
      assert all[k + 1] == os[k] && msgs[k + 1] == msgs[1..][k];
    }
  }

  /** During the batch the flags only accumulate, one per flagged message,
      and nothing is purged. */
  lemma {:induction false} BatchFlags(env: Env, st: State, msgs: seq<Message>)
    ensures Batch(env, st, msgs).1.purged == st.purged
    ensures Batch(env, st, msgs).1.flagged == st.flagged + FlaggedIds(msgs, Batch(env, st, msgs).0)
    decreases |msgs|
  {
    if msgs != [] {
      var first := Step(env, st, msgs[0]);
      DispositionRule(env, st, msgs[0]);
      if first.0.Aborted? {
        FlaggedIdsCons(msgs, first.0, []);
      } else {
        var rest := Batch(env, first.1, msgs[1..]);
        BatchFlags(env, first.1, msgs[1..]);
        FlaggedIdsCons(msgs, first.0, rest.0);
      }
    }
  }

  /** Flags are committed once: a completed run purges every message
      flagged before or during it and leaves no flag; an aborted run purges
      nothing, leaving the flags it set in place. */
  lemma RunCommitsOnce(env: Env, st: State, msgs: seq<Message>)
    ensures
      var r := Run(env, st, msgs);
      Completed(r.0) ==> r.1.purged == st.purged + st.flagged + FlaggedIds(msgs, r.0) && r.1.flagged == {}
    ensures
      var r := Run(env, st, msgs);
      !Completed(r.0) ==> r.1.purged == st.purged && r.1.flagged == st.flagged + FlaggedIds(msgs, r.0)
  {
    BatchFlags(env, st, msgs);
  }

  // ---------------------------------------------------------------------
  // A worked case

  /** The path of a folder directly under the base, joined with a separator. */
  lemma JoinedUnder(base: string, name: string, path: string)
    requires |base| > 0 && base[|base| - 1] != '/' && |name| > 0 && name[0] != '/'
    requires path == base + "/" + name
    ensures Join(base, name) == path
  {
  }

  /** The folder of the worked case: the only subdirectory of the base. */
  lemma MandateFolder(basePath: string, name: string, base: Dir)
    requires basePath == "/drive" && name == "DOSSIER_12345_DUPONT"
    requires base == Dir("drive", true, [Dir(name, true, [])])
    ensures FindDossierPath(basePath, base, "12345") == Some(basePath + "/" + name)
  {
    assert OccursAt(name, "12345", 8);
    ChildrenBeforeGrandchildren(basePath, base, "12345", 0);
    JoinedUnder(basePath, name, basePath + "/" + name);
  }

  /** The task of the worked case: the only task of the listing. */
  lemma MandateTask(tasks: seq<TaskRef>)
    requires tasks == [TaskRef("12345 - DUPONT", "1201")]
    ensures FindTaskByDossierNumber(tasks, "12345") == Some("1201")
  {
    assert OccursAt(tasks[0].name, "12345", 0);
  }

  /** The single attachment of the worked case is written under its name. */
  lemma MandateSaved(files: map<string, Bytes>, folder: string, file: string, parts: seq<Part>, data: Bytes)
    requires |folder| > 0 && folder[|folder| - 1] != '/' && file == "justificatif.pdf"
    requires parts == [Part(false, true, Some(file), file, data)]
    ensures HasAttachment(parts)
    ensures SaveAll(files, folder, parts) == files[folder + "/" + file := data]
  {
    assert IsAttachment(parts[0]);
    assert parts[..0] == [];
    JoinedUnder(folder, file, folder + "/" + file);
  }

  /** The tracker calls of the worked case: the mandate option is removed
      from the general field and the task is moved into the first section. */
  lemma MandatePlan(cfg: Config, gid: string, details: TaskDetails)
    requires details == TaskDetails([CustomField(cfg.fieldDocs, Some([EnumOption(cfg.optionMandat, "Mandat")]))], None)
    ensures PlannedActions(cfg, gid, details) ==
      [UpdateTask(gid, map[cfg.fieldDocs := []]), AddTaskForSection(cfg.sectionDemandes, gid)]
  {
    var opts := [EnumOption(cfg.optionMandat, "Mandat")];
    assert LastSelected(details.customFields, cfg.fieldDocs) == opts;
    assert opts[..0] == [];
    assert KeptGids(opts, GeneralRemoved(cfg)) == [];
  }

  /** A subject with a marker-prefixed number, one attachment, one matching
      folder under the base and one matching task outside the quitus
      project whose general field holds the mandate option: the file is
      written into the folder, the option is removed, the task is moved
      into the first section only, and the message is flagged. */
  lemma MandateReceived(env: Env, st: State, m: Message, pre: string, rest: string, name: string,
                        file: string, data: Bytes)
    requires pre == "Dossier " && rest == " - pi\U{E8}ces jointes"
    requires m.subject == pre + "n\U{B0}12345" + rest
    requires file == "justificatif.pdf"
    requires m.parts == [Part(false, true, Some(file), file, data)]
    requires env.basePath == "/drive" && name == "DOSSIER_12345_DUPONT"
    requires env.base == Dir("drive", true, [Dir(name, true, [])])
    requires env.projectTasks == [TaskRef("12345 - DUPONT", "1201")]
    requires "1201" in st.tracker.details
    requires st.tracker.details["1201"] ==
      TaskDetails([CustomField(env.cfg.fieldDocs, Some([EnumOption(env.cfg.optionMandat, "Mandat")]))], None)
    ensures
      var r := Step(env, st, m);
      var folder := env.basePath + "/" + name;
      && r.0 == Reconciled("12345", folder, "1201")
      && r.1.files == st.files[folder + "/" + file := data]
      && r.1.tracker.actions == st.tracker.actions +
           [UpdateTask("1201", map[env.cfg.fieldDocs := []]), AddTaskForSection(env.cfg.sectionDemandes, "1201")]
      && r.1.flagged == st.flagged + {m.id}
  {
    TypicalSubject(pre, rest);
    MandateFolder(env.basePath, name, env.base);
    MandateTask(env.projectTasks);
    MandateSaved(st.files, env.basePath + "/" + name, file, m.parts, data);
    MandatePlan(env.cfg, "1201", st.tracker.details["1201"]);
  }
}
