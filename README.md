# QuadraFlow mail processing, modelled in Dafny

QuadraFlow is a small desktop tool for a vehicle-registration office. It drains an IMAP inbox in one pass, triggered from a button. For every message it:

1. extracts a five-digit case number ("dossier") from the decoded subject;
2. finds the case folder on a shared drive by walking the drive's directory tree;
3. writes the message's attachments into that folder;
4. finds the case's task in an Asana project;
5. removes the "missing document" options that the mail satisfies from two multi-enum custom fields;
6. moves the task into its sections;
7. flags the message `\Deleted`.

After the whole batch, one `expunge` purges the flagged messages.

This project models that core, which is the functions and the `process_mails` loop of `main.py`, and proves properties of the model.

| module | file | models |
|---|---|---|
| `Text` | `text.dfy` | the character classes `\d`, `\s` and `\w` of Python's `re`; `needle in hay`; two-part `posixpath.join` |
| `Dossier` | `dossier.dfy` | `extract_dossier_num` |
| `Folders` | `folders.dfy` | `find_dossier_path` over a top-down `os.walk` of a directory tree |
| `Tasks` | `tasks.dfy` | `find_task_by_dossier_number`, `task_is_in_project`, reconciliation of custom fields and sections, the tracker as an object |
| `Mail` | `mail.dfy` | the attachment loop; the mailbox and drive as objects; one message (`ProcessMessage`, specified by `Step`); the batch (`ProcessMails`, specified by `Batch` and `Run`) |

## How each part is modelled

**Regex searches.** The two `re.search` calls are modelled twice:

- as declarative predicates that say where each pattern matches (`MarkerMatch`, `BareMatch`);
- as left-to-right scanners (`MarkerAt`, `FirstMarker`, `FirstBare`).

Lemmas prove that the two forms agree. From that they derive the leftmost-match rule, marker precedence and the fallback.

**Drive tree.** `os.walk` runs over a `Dir` tree that is given as input. Each directory's listing order is part of that input. A `Dir` whose `entered` flag is false is one that `os.walk` names but does not descend into: a directory it cannot read, or a symbolic link.

**Imperative parts.** The state-changing parts keep their imperative form:

- classes `Mailbox`, `Drive` and `Tracker`, with fields updated in place;
- loops for the attachment walk, the field scan and the option filters;
- a loop over the message identifiers.

Each method is proved equal to a function of the old state:

- `SaveAttachments` to `SaveAll`;
- `ReconcileTask` to `AfterReconcile`;
- `ProcessMessage` to `Step`;
- `ProcessMails` to `Run`.

The properties are then proved about those functions.

**Mailbox and tracker.** The mailbox is modelled as two sets of message identifiers: flagged and purged. The tracker is modelled as:

- the details it returns for each task gid;
- the log of calls that change it (`UpdateTask`, `AddTaskForSection`).

`update_task` restricts each named field to the listed option gids, so a later lookup of the same task sees its effect.

**A failed `find_by_id`.** This call raises an exception that ends `process_mails`. It is modelled as the outcome `Aborted`: the batch stops at that message and no `expunge` follows. An unknown gid stands for the failure.

**Where the code and its description differ** (the model follows the code):

- The marker pattern is `n[º°]?\s*(\d{5})`. It accepts `n` or `N` with an optional `º` or `°`. The word `no` is not a marker: `no12345` yields nothing, because `o` is a word character, so `\b` fails before the digits (`Dossier.LetterOIsNotOrdinal`).
- After the marker, the five digits need not be followed by a non-digit. `n123456` yields `12345`: in `Dossier.FirstMarkerWins` the text after the digits is arbitrary.
- A message without attachments is flagged only after its case number and its folder have been found. A message that has neither is left in the inbox, attachments or not (`Mail.SkippedWithoutCaseOrFolder`, `Mail.AttachmentLessIsDeletedOnly`).
- The quitus membership test compares the task's project gids with `SECTION_ID_QUITUS`, a section id: `main.py:151` and `main.py:169`. This is modelled as written, with `Config.sectionQuitus` as the gid compared. Gids are opaque strings, so the model cannot show whether a section id can ever equal a project gid.
- The `success` flag is never cleared. The second deletion is therefore unconditional once the task calls return.

## Model

| member | source | states |
|---|---|---|
| Text.IsSpace | main.py:43 | `\s`: the characters for which `str.isspace` holds; used by `Dossier.SkipSpaces` and `Dossier.MarkerAtIsMatch` |
| Text.IsWordChar | main.py:46 | `\w` as `\b` tests it, exact up to U+00FF; its meaning for the fallback is stated by `Dossier.BareMatchMeaning` |
| Text.Join | main.py:114 | `os.path.join(a, b)`: an absolute `b` replaces `a`. Otherwise the result is `a`, then a `/` exactly when `a` is non-empty and does not end in `/`, then `b` |
| Dossier.SkipSpaces | main.py:43 | greedy `\s*`: the run it skips is all whitespace and ends at a non-whitespace character or at the end |
| Dossier.MarkerAt | main.py:43 | the marker pattern tried at one position; `Dossier.MarkerAtIsMatch` proves it reports exactly the matches of the pattern there |
| Dossier.FirstMarker | main.py:43 | the leftmost position at which the marker scanner succeeds; none before it; `None` only when it succeeds nowhere |
| Dossier.FirstBare | main.py:46 | the leftmost position where `\b\d{5}\b` matches, with no match before it; `None` only when there is no match |
| Dossier.ExtractDossierNum | main.py:42-49 | any result is a string of exactly five ASCII digits that occurs in the subject |
| Dossier.SpacesEndAtSkip | main.py:43 | a whitespace run that stops at a non-space ends where the greedy `\s*` stops |
| Dossier.ParseEndsAtSkip | main.py:43 | in any parse of the marker pattern, the whitespace before the group is the maximal run |
| Dossier.MarkerAtIsMatch | main.py:43 | the marker scanner reports group start `k` at `i` if and only if the pattern matches at `i` with its group at `k`, whichever way the optional sign is taken |
| Dossier.BareMatchMeaning | main.py:46 | `\b\d{5}\b` matches at `i` exactly when five digits start there with no word character right before or after; such a run is never part of a longer digit run |
| Dossier.MarkerPrecedence | main.py:43-45 | the leftmost marker match decides the result, whatever bare tokens the subject also holds |
| Dossier.BareFallback | main.py:46-48 | with no marker match anywhere, the result is the leftmost standalone five-digit token |
| Dossier.NoMarkerMeansNoScan | main.py:43-44 | without a marker match, the marker search finds nothing |
| Dossier.NoneIffNoMatch | main.py:42-49 | no case number is found if and only if neither pattern matches anywhere |
| Dossier.NoDigitsNoCase | main.py:42-49 | a subject without five consecutive ASCII digits has no case number |
| Dossier.NoLetterNoMarkerBefore | main.py:43 | no marker match starts at a position that does not hold `n` or `N` |
| Dossier.FirstMarkerWins | main.py:43-45 | `pre` + `n`/`N` + optional `º`/`°` + whitespace + five digits + anything yields those digits when `pre` holds no `n`/`N`, even if `pre` contains a bare token or more digits follow |
| Dossier.MarkerBeatsEarlierToken | main.py:43-45 | `Facture 54321 / n° 12345` yields `12345`, not the earlier `54321` |
| Dossier.UnderscoreBlocksToken | main.py:46-49 | `DOSSIER_12345` yields no case number, because `_` is a word character |
| Dossier.SixDigitsNoToken | main.py:46-49 | `123456` yields no case number |
| Dossier.LetterOIsNotOrdinal | main.py:43-49 | `no12345` yields no case number: `o` is not an ordinal sign |
| Dossier.TypicalSubject | main.py:42-45 | `Dossier n°12345 - pièces jointes` yields `12345` |
| Folders.Names | main.py:53 | the `dirs` list of a walked directory: its subdirectories' names, in listing order |
| Folders.Walk | main.py:52 | top-down `os.walk` of one directory: itself, then each subdirectory's walk in listing order; what it tests is stated by `Folders.WalkTestsSubdirs` and `Folders.ChildrenBeforeGrandchildren` |
| Folders.WalkAll | main.py:52 | the walks of a directory's subdirectories, in listing order; stated by `Folders.WalkAllTestsAmong` |
| Folders.Candidates | main.py:52-54 | the names the two nested loops test, in order; stated by `Folders.CandidatesAppend` and `Folders.FindDossierPath` |
| Folders.FirstNamed | main.py:52-55 | the first tested name that contains the number, with none before it; `None` only when no tested name contains it |
| Folders.FindDossierPath | main.py:51-56 | the result exists if and only if some tested name contains the number; it is `join(root, name)` for the first such name in walk order |
| Folders.AnyNamedAppend | main.py:52-54 | a name is found in two concatenated candidate lists if and only if it is found in one of them |
| Folders.CandidatesAppend | main.py:52-53 | the names tested for two walk segments are those of each segment, in order |
| Folders.WalkTestsSubdirs | main.py:52-54 | walking a directory tests a name containing the number exactly when some directory the walk reaches below it has one |
| Folders.NamesTestedAmong | main.py:53-54 | the first visit of a walk tests exactly the names of the directory's own subdirectories |
| Folders.WalkAllTestsAmong | main.py:52-54 | walking the subdirectories, together with their own names, finds the number exactly when it is among or below them |
| Folders.NotFoundIffNoSubdir | main.py:51-56 | no folder is found if and only if no reachable directory below the base has a matching name; the base's own name is never tested |
| Folders.ChildrenBeforeGrandchildren | main.py:52-55 | top-down order: the first matching direct subdirectory of the base wins over any deeper match |
| Tasks.FirstTaskNamed | main.py:60-63 | the first listed task whose name contains the number, with none before it |
| Tasks.FindTaskByDossierNumber | main.py:58-64 | `None` if and only if no task name contains the number; otherwise the gid of the first task whose name does |
| Tasks.AnyProjectIs | main.py:67 | `any(...)` holds exactly when some listed project has the gid |
| Tasks.TaskIsInProject | main.py:66-67 | true exactly when the task's projects, defaulting to none, include the gid |
| Tasks.LastSelected | main.py:133-137 | the options of the last field with the given gid; `[]` when no field has it or when that field has no `multi_enum_values` |
| Tasks.SelectCurrentOptions | main.py:130-137 | the field loop leaves exactly the last matching field's options in each of the two lists |
| Tasks.KeptGids | main.py:139-144 | the kept gids exclude the removed ones, include every other option's gid, and each comes from an option |
| Tasks.FilterOptions | main.py:153-158 | the option loop returns exactly `KeptGids` of its input |
| Tasks.KeptGidsAppend | main.py:140-144 | filtering preserves order: filtering a concatenation is the concatenation of the filtered parts |
| Tasks.PlannedUpdate | main.py:146-159 | the dictionary sent to `update_task`; its keys and values are stated by `Tasks.UpdateShape` |
| Tasks.PlannedActions | main.py:161-171 | the tracker calls of reconciliation, in order; stated by `Tasks.ActionsShape` |
| Tasks.UpdateShape | main.py:146-159 | the update always names the general field and names the quitus field exactly when the membership test holds; each value is the filtered current options |
| Tasks.ActionsShape | main.py:161-171 | one update, then a move into the first section, then a move into the quitus section exactly when the membership test holds |
| Tasks.Restrict | main.py:161-163 | after `update_task`, a field holds exactly those of its options whose gids were sent |
| Tasks.RestrictAppend | main.py:161-163 | the restriction keeps the order of the options: restricting a concatenation restricts each part |
| Tasks.Updated | main.py:161-163 | an update changes neither the number of fields nor the projects |
| Tasks.LastSelectedUpdated | main.py:133-137 | after an update, reading a named field sees its earlier selection restricted to the sent gids |
| Tasks.KeptAfterRestrict | main.py:139-144 | filtering a selection already restricted to the kept gids gives the same gids |
| Tasks.ReconcileIdempotent | main.py:129-171 | once the update has been applied, reconciling the same task again sends identical calls |
| Tasks.AfterReconcile | main.py:129-171 | the tracker after reconciling one task: its details updated, and the planned calls appended; `Tasks.ReconcileTask` is proved equal to it |
| Tasks.Tracker.FindById | main.py:129 | `find_by_id` returns the task's details, or fails for an unknown gid |
| Tasks.Tracker.UpdateTask | main.py:161-163 | the task's details become the updated ones and the call is logged; nothing else changes |
| Tasks.Tracker.AddTaskForSection | main.py:166 | the move is logged; details are unchanged |
| Tasks.ReconcileTask | main.py:129-171 | succeeds exactly when the task is known; then the tracker state is `AfterReconcile`; otherwise nothing changes |
| Mail.HasAttachment | main.py:103-112 | true exactly when some part is not multipart, has a Content-Disposition and has a non-empty file name |
| Mail.SaveAll | main.py:103-117 | the drive after the attachment loop; what it holds at each path is stated by `Mail.SaveAllAt` |
| Mail.SaveAllKeys | main.py:103-117 | a path is on the drive after the loop exactly when it was there before or some attachment is written to it |
| Mail.SaveAllLastWins | main.py:114-116 | the last attachment written to a path decides its contents |
| Mail.SaveAllUntouched | main.py:103-117 | a path that no attachment is written to keeps its contents |
| Mail.SaveAllAt | main.py:103-117 | a path ends up on the drive exactly when it existed or some attachment is written there; the last attachment written to a path wins; other paths keep their contents |
| Mail.SaveAllWithoutAttachments | main.py:103-117 | without attachments no file is written |
| Mail.AbsoluteNameLeavesFolder | main.py:114-116 | an absolute attachment name is written at that name, outside the case folder |
| Mail.Mailbox.Store | main.py:121 | `store(+FLAGS \Deleted)` adds the id to the flagged set and purges nothing |
| Mail.Mailbox.Expunge | main.py:177 | every flagged message is purged and no flag remains |
| Mail.Drive.Write | main.py:115-116 | writing creates or overwrites exactly one file |
| Mail.SaveAttachments | main.py:103-117 | the loop reports `HasAttachment` and leaves the drive as `SaveAll` of the parts |
| Mail.Step | main.py:83-175 | one message, as a function of the state; its meaning is stated by `Mail.DispositionRule`, `Mail.SkippedWithoutCaseOrFolder`, `Mail.AttachmentLessIsDeletedOnly`, `Mail.FilesStayWithoutTask`, `Mail.ReconciledEffects` and `Mail.AbortedEffects` |
| Mail.Batch | main.py:82-175 | the loop over the messages, stopping at an abort; stated by `Mail.BatchInOrder`, `Mail.BatchLength` and `Mail.BatchFlags` |
| Mail.Run | main.py:82-177 | the loop and then the expunge, which happens only if nothing aborted; stated by `Mail.RunCommitsOnce` |
| Mail.ProcessMessage | main.py:83-175 | the outcome and the new state of mailbox, drive and tracker are those of `Step` |
| Mail.ProcessMails | main.py:82-177 | the outcomes and the final state are those of `Run`: the messages are processed in order and expunged once at the end unless the run aborts |
| Mail.DispositionRule | main.py:91-175 | a message is flagged if and only if its case number and folder are found and either it has no attachment, or its task is found and known to the tracker; nothing is purged during the loop |
| Mail.SkippedWithoutCaseOrFolder | main.py:91-101 | without a case number or a folder, nothing is written, the tracker is untouched, and the message stays unflagged |
| Mail.AttachmentLessIsDeletedOnly | main.py:119-122 | a message with a folder but no attachment is flagged, with no file written and no tracker call |
| Mail.FilesStayWithoutTask | main.py:124-127 | with attachments and no task found, the files stay written, the tracker is untouched and the message stays unflagged |
| Mail.ReconciledEffects | main.py:91-175 | a reconciled message has the case number of its subject, the folder `find_dossier_path` found for it and the task `find_task_by_dossier_number` found. Its attachments were written into that folder, and the tracker state is `AfterReconcile` for that task. It is flagged and nothing is purged |
| Mail.AbortedEffects | main.py:124-129 | when the task found cannot be fetched, the files stay written into the folder found, and the tracker and the flags are unchanged |
| Mail.BatchInOrder | main.py:82 | outcome `i` is that of message `i` in the state left by the messages before it; only the last outcome can be an abort |
| Mail.BatchLength | main.py:82 | a batch has at most one outcome per message, and exactly one per message when nothing aborts |
| Mail.FlaggedIdsCons | main.py:121 | the flagged ids of a batch are those of its first message plus those of the rest |
| Mail.BatchFlags | main.py:82-175 | during the loop, flags only accumulate, one per message whose outcome flags it, and nothing is purged |
| Mail.RunCommitsOnce | main.py:173-177 | a completed run purges every flagged message once at the end; an aborted run purges nothing and leaves its flags set |
| Mail.JoinedUnder | main.py:114 | joining a relative name under a path that does not end in `/` inserts one separator |
| Mail.MandateFolder | main.py:51-56 | the worked case's folder is found under the base |
| Mail.MandateTask | main.py:58-64 | the worked case's task is found in the listing |
| Mail.MandateSaved | main.py:103-117 | the worked case's one attachment is written under its name in the folder |
| Mail.MandatePlan | main.py:139-171 | the worked case: the mandate option is removed and the task is moved into the first section only |
| Mail.MandateReceived | main.py:91-175 | end to end: subject `Dossier n°12345 - pièces jointes`, attachment `justificatif.pdf`, folder `/drive/DOSSIER_12345_DUPONT`, task `12345 - DUPONT`; the file is written, the option removed, the task moved, and the message flagged |

## Left out

- The GUI (`launch_gui`) and `log` are presentation only and do not affect any decision.
- IMAP session handling (`login`, `select`, `search`, `fetch`, `logout`) is left out. The messages are given as a sequence in search order, with natural-number identifiers.
- MIME parsing and `decode_mime_words` are left out. Each message comes with its decoded subject and, for each part, what the email library reports (multipart or not, disposition present, file name, decoded file name, decoded payload).
- `os.walk` itself is not modelled; the tree and each directory's listing order are inputs. A directory that cannot be read, or a symbolic link (not followed by default), appears as a `Dir` that is not entered.
- The configuration read by `load_dotenv` and `os.getenv` is a `Config` value. The project task listing is an input to the lookup.
- Dossier.ExtractDossierNum: `\d` is limited to ASCII digits and `\w` is exact only up to U+00FF, although Python's str patterns use the full Unicode classes.
- Section moves are logged but do not change the task's `projects` in the tracker model. The membership test reads details fetched before the moves.
- Tasks.Updated: only removals from a selection are modelled. Reconciliation never sends a gid that is not already selected.
- Failures other than an unknown task gid are not modelled. These include network and API errors, a file that cannot be written, and a JSON `null` in `multi_enum_values`. Each would raise and end the run like `Aborted`.
- The project's task listing (`get_tasks_for_project`, fetched again for every message) is taken as one fixed listing for the whole run. Its contents and order are held fixed, although section moves made for earlier messages might change them between fetches.
- Writing a file whose decoded name leads into a directory that does not exist would fail. The drive is a flat map from paths to contents.
- Writing a partial file on a crash is not modelled.
