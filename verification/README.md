# sitecreator deployment core, in Dafny

A model of the deployment core of *Site Creator*, a desktop tool that prepares
an Ubuntu server over SSH for a small Flask site behind nginx. The modelled
parts are:

- the remote helpers of `server.py`: `run_commands`, `edit_config` with
  `get_content` and `get_filepath`, and `upload_server` with its recursive
  folder mirror;
- the phase order of `server_control`;
- the pre-flight check and the clean-up of `server_check.py`;
- the staged upload of `upload.py`: the project, then `white.html`, then the
  static bundle;
- the black-page helpers of `black_upload.py` and `black_server.py`;
- the input check and the dispatch of `ui.py`.

The SSH connection is a class, `Remote.Host`. It holds a fixed `Oracle` that
describes the server:

- which sessions are refused, and the error each refused one raises. A
  session is named by the routine that opens it and that routine's arguments:
  a run of commands, an `edit_config` for a name, or an `upload_server` of a
  local path to a remote directory and item. Whether one session opens says
  nothing about any other;
- the reply to each command, which is either `Raised` or `Completed` with
  stdout, stderr and an exit status. The oracle lists the commands that have
  a reply of their own; any other command completes silently with status 0;
- the paths where `mkdir` fails and the transfers where `put` fails.

The host also holds a `trace` of every `Exec`, `Mkdir` and `Put` issued, in
order. Each source routine that talks to the server is a method that appends
to that trace. Each such method is proved equal to a specification function
of the oracle (`Batch`, `EditOps`, `UploadRun`, `MirrorAll`, `ControlOps`,
`UploadPlan`, `BlackPlan`, …). The properties are lemmas about those
functions.

The rendered files are modelled character for character, and each has a
reader:

- the site configuration is read back by an INI `key = value` reader;
- the nginx virtual host is read back by a directive reader;
- the `sudo bash -c '… << "EOF" …'` command is parsed back into the file it
  writes and the move that follows.

The modules:

| module | file |
|---|---|
| `Remote` | the SSH transport |
| `Text` | Python string and path built-ins used by the code |
| `Mirror` | `upload_folder_recursive` |
| `Render` and `NginxSite` | `get_content`, `get_filepath` and the write command |
| `Server` | `server.py` |
| `ServerCheck` | `server_check.py` |
| `Upload` | `upload.py` |
| `BlackUpload` | `black_upload.py` |
| `BlackServer` | `black_server.py` |
| `Ui` | `ui.py` |

Several routines exist in more than one copy in the repository, and each is
modelled once:

- `run_commands` appears in `server.py`, `upload.py`, `black_server.py` and
  `black_upload.py`. All copies behave the same: `Server.RunCommands`.
- `get_content`, `get_filepath` and `edit_config` appear in `server.py` and
  `black_server.py` (`Render`, `Server.EditConfig`).
- `upload_server` appears in three variants:
  - `server.py`, `black_server.py` and `black_upload.py` share the operations
    of `Server.UploadRun`;
  - on failure, `server.py` returns `False`, while the two black copies call
    `exit()`, which `BlackUpload` models as the `Exited` outcome;
  - `upload.py` prepares the remote side itself (`Upload.UploadRun`).

Where the repository's prose and its code disagree, the model follows the
code. `server_control` is described as stopping after a failed pre-check,
but the code runs `pre_check_commands` and continues whatever they report
(`Server.ControlNotGated`).

## Model

| member | source | states |
|---|---|---|
| Remote.Host.ExecCommand | site_creator/server.py:132-134 | one `Exec` of the command is appended to the trace; the reply is the server's reply to that command |
| Remote.Host.MakeDir | site_creator/server.py:111 | one `Mkdir` is appended; the result says whether the server made the directory |
| Remote.Host.PutFile | site_creator/server.py:109 | one `Put` is appended; the result says whether the transfer succeeded |
| Remote.Commands | site_creator/server.py:131-132 | one `Exec` per command, in list order |
| Remote.IssueAll | site_creator/server.py:131-139 | when no command raises, a batch issues every command, in list order; stderr output never stops it |
| Remote.IssueStopsAtRaise | site_creator/server.py:131-143 | when command `k` is the first to raise, the batch has issued exactly commands `0..k`, because the exception leaves the loop |
| Server.RunCommands | site_creator/server.py:124-143 | the trace grows by `Batch`: nothing when the session does not open, otherwise the commands in order up to and including the first that raises |
| Server.BatchPrefix | site_creator/server.py:131-143 | what a batch issues is a prefix of its command list |
| Server.IssuePrefix | site_creator/server.py:131-143 | once connected, the commands issued are a prefix of the list, and no longer than it |
| Server.IssueDependsOnOwnReplies | site_creator/server.py:131-143 | once connected, which commands are issued depends only on the replies to those commands |
| Server.BatchDependsOnOwnReplies | site_creator/server.py:124-143 | what a batch issues depends only on whether its own session opens and on the replies to its own commands |
| Server.EditConfig | site_creator/server.py:49-82 | the trace grows by `EditOps`: nothing without a session or for an unknown name (the swallowed `KeyError`), otherwise the one write command |
| Server.EditConfigWrites | site_creator/server.py:59-69 | for a known name and data without newlines or quotes, exactly one command goes out; it writes the lines of `get_content(name, data)` to `/tmp/<name>_config` and then moves that file |
| Server.EditOpsNamed | site_creator/server.py:59-69 | when its session opens, `nginx` and `config` issue exactly their own write command |
| Server.EditOpsOnConnection | site_creator/server.py:69-82 | what `edit_config` issues depends only on whether its own session opens, never on the reply it gets |
| Server.EditConfigNothing | site_creator/server.py:38-46 | an unknown name or a failed connection issues nothing |
| Server.UploadServer | site_creator/server.py:85-121 | the trace grows by `UploadRun` and the result is its success flag |
| Server.UploadFile | site_creator/server.py:106-109 | a local file is one put to `remote/item`, with no mkdir and no command; the upload succeeds exactly when the put does |
| Server.UploadFolder | site_creator/server.py:110-112 | a folder upload first makes `remote/item` and stops when that fails; a completed one puts every file under it, each from its local path, and makes every subdirectory, depth first |
| Server.UploadOk | site_creator/server.py:100-121 | success means: a session, a file or a folder whose directory was made, and every put succeeded |
| Server.RunBatches | site_creator/server.py:259-263 | two `run_commands` calls in a row grow the trace by both batches |
| Server.RunEdits | site_creator/server.py:264-265 | two `edit_config` calls in a row grow the trace by both writes |
| Server.ServerControl | site_creator/server.py:240-272 | the trace grows by `ControlOps`: pre-check, cleanup, init, the nginx and config writes, start, verification |
| Server.ControlIssuesAll | site_creator/server.py:240-270 | when each phase's session opens and nothing raises, every command of every phase runs in phase order, with the nginx and config writes between init and start |
| Server.EditsNamed | site_creator/server.py:264-265 | the two writes of `server_control` are the nginx site's, then the configuration's |
| Server.ControlNotGated | site_creator/server.py:248-259 | what follows the pre-check is the same whatever the pre-check commands reply and whether or not the pre-check's session opened; it depends only on the later phases' own sessions and replies |
| Server.ControlConfig | site_creator/server.py:242-246 | the configuration `server_control` writes reads back with `SITE` = domain and `BLACK`, `BLACK_LIST` empty |
| Render.ArtifactNamed | site_creator/server.py:10-38 | only `nginx` and `config` are known names |
| Render.GetContent | site_creator/server.py:6-38 | content exists exactly for the two known names |
| Render.GetFilepath | site_creator/server.py:41-46 | a path exists exactly for the two known names, and it is absolute |
| Render.Terminator | site_creator/server.py:65 | the heredoc ends at the first line that is exactly `EOF` |
| Render.WriteCommandParses | site_creator/server.py:64-65 | the shell reads the write command back as: write the content's lines to the temp file, then `mv` it onto the path |
| Render.ConfigSettings | site_creator/server.py:31-36 | each value of the configuration is found on the line that assigns it |
| Render.ConfigRoundTrip | site_creator/server.py:31-36 | the rendered configuration opens `[site]` and reads back `SITE`, `BLACK`, `BLACK_LIST` as given |
| Render.NginxRoundTrip | site_creator/server.py:11-30 | the rendered virtual host reads back as the two `listen`s, `server_name www.<domain> <domain>` and the proxy directives, in order |
| Render.WriteLines | site_creator/server.py:65 | any heredoc-safe lines, joined, are written exactly by the command |
| Render.EditCommandWrites | site_creator/server.py:59-65 | for either file and data without newlines or quotes, the command writes exactly the rendered lines to `/tmp/<name>_config` and moves it onto the file's path |
| Render.TargetsAreWords | site_creator/server.py:41-46 | the temp file and both target paths are single shell words |
| NginxSite.ParseLineOf | site_creator/server.py:13-27 | every directive line of the template reads back as its directive |
| NginxSite.DirectivesOfLines | site_creator/server.py:19-27 | a block of directive lines reads back as its directives, in order |
| NginxSite.SiteDirectives | site_creator/server.py:11-30 | the whole site reads back as `listen`, `listen`, `server_name`, then the nine proxy directives |
| NginxSite.SiteClean | site_creator/server.py:11-30 | for a domain without newline or quote, no line of the site is `EOF` and none breaks the single-quoted script |
| Text.Strip | site_creator/ui.py:273 | the result of `strip()` starts and ends with a non-space character, or is empty |
| Text.StripEmptyIffBlank | site_creator/ui.py:273 | `s.strip()` is empty exactly when `s` is all white space |
| Text.ContainsSpliced | site_creator/server_check.py:120 | a text contains any piece spliced into it |
| Text.JoinWithContains | site_creator/server_check.py:173 | a joined text contains each of its pieces |
| Text.SplitJoin | site_creator/server.py:65 | splitting undoes joining when no piece holds the separator |
| Text.LinesJoin | site_creator/server.py:65 | the lines of a newline-joined text are the pieces joined |
| Text.PathJoinPlain | site_creator/upload.py:102-104 | `os.path.join(a, b)` inserts exactly one `/` after a directory without a trailing slash |
| Text.Dirname | site_creator/upload.py:31 | `os.path.dirname` of a path without `/` is empty |
| Text.DirnameOfChild | site_creator/upload.py:31 | the directory of `dir/name` is `dir` |
| Mirror.MirrorFolder | site_creator/server.py:86-98 | the trace grows by `MirrorAll` and the result is its success flag |
| Mirror.MirrorEntry | site_creator/server.py:91-98 | one loop round: a file is put; a directory is made, a failed mkdir is ignored, and the directory is mirrored |
| Mirror.MirrorTargets | site_creator/server.py:86-98 | a completed mirror puts every local file under `remote`, makes every subdirectory there, and runs no command |
| Mirror.MirrorTransfers | site_creator/server.py:86-98 | a completed mirror sends exactly the listing's files, each from its `os.path.join` local path to `remote/<same names>`, in listing order |
| Mirror.MirrorRunsNothing | site_creator/server.py:86-98 | a mirror, completed or not, never runs a command |
| Mirror.DirTargets | site_creator/server.py:93-98 | a mirrored directory's mkdir comes before those of its contents |
| Mirror.MirrorFailsOnlyAtPut | site_creator/server.py:92-97 | a mirror fails exactly when a put fails, and that put is the last operation issued |
| Mirror.MirrorIgnoresMkdir | site_creator/server.py:94-97 | whether the remote directories already exist makes no difference |
| Mirror.SampleTree | site_creator/server.py:86-98 | `{a.txt, sub/b.txt}` into `dest` puts `dest/a.txt` and `dest/sub/b.txt` and makes only `dest/sub` |
| ServerCheck.Record | site_creator/server_check.py:25-40 | a recorded command succeeded exactly when its exit status is 0; the streams and the status are kept |
| ServerCheck.RunCheckCommands | site_creator/server_check.py:11-46 | the trace grows by `Batch` and the result is `CheckResults` |
| ServerCheck.CollectRecordsAll | site_creator/server_check.py:20-42 | when nothing raises, the map gains one record per command string and keeps the rest |
| ServerCheck.CollectStopsAtRaise | site_creator/server_check.py:20-46 | the first command that raises ends the loop, and only its error survives |
| ServerCheck.CheckResultsShape | site_creator/server_check.py:11-46 | the error entry comes back exactly when the connection fails or a command raises; otherwise exactly one record per command |
| ServerCheck.NumberDecimal | site_creator/server_check.py:101 | `int()` reads back the decimal numeral of a number |
| ServerCheck.VersionOfText | site_creator/server_check.py:99-101 | `Python <major>.<minor>…` is read back as `(major, minor)` |
| ServerCheck.VersionMatchSkips | site_creator/server_check.py:99 | the leftmost search skips text without a `P` |
| ServerCheck.PercentOfText | site_creator/server_check.py:138-140 | `<n>%` is read back as `n` |
| ServerCheck.PercentMatchSkips | site_creator/server_check.py:138 | the leftmost search skips text that holds no `%` and does not end in a digit |
| ServerCheck.NoPercentAt | site_creator/server_check.py:138 | no match of `(\d+)%` starts inside such text |
| ServerCheck.PythonCheck | site_creator/server_check.py:97-115 | the Python check can raise an issue, never a warning |
| ServerCheck.SentinelCheck | site_creator/server_check.py:120-129 | the port and Flask checks can warn, never raise an issue |
| ServerCheck.NginxCheck | site_creator/server_check.py:157-163 | the nginx check can warn, never raise an issue |
| ServerCheck.FallbacksPass | site_creator/server_check.py:56-58 | output holding a command's `echo` fallback message passes its check |
| ServerCheck.BlankPasses | site_creator/server_check.py:120-163 | blank output never warns |
| ServerCheck.PythonVersionVerdict | site_creator/server_check.py:97-105 | a reported version is an issue exactly when it is older than 3.6 |
| ServerCheck.DiskVerdict | site_creator/server_check.py:136-146 | for a `df` line whose device and size columns hold no `%` and are set off by a blank, a disk usage above 90 is an issue, above 80 up to 90 a warning, otherwise nothing |
| ServerCheck.FullDiskLine | site_creator/server_check.py:134-146 | the line `/dev/sda1 20G 19G 1G 95% /` is an issue |
| ServerCheck.Summary | site_creator/server_check.py:172-190 | the verdict is true exactly when there are no issues |
| ServerCheck.SummaryMentions | site_creator/server_check.py:172-181 | every issue and every warning appears in the message as a bullet |
| ServerCheck.SummaryAsks | site_creator/server_check.py:178-190 | without issues, the message asks whether to continue exactly when there are warnings |
| ServerCheck.StatusWithoutSession | site_creator/server_check.py:70-73 | no session, or a command that raises, gives `False` and `SSH 연결 오류: ` plus the error |
| ServerCheck.StatusOfReplies | site_creator/server_check.py:85-176 | when every command completes, the verdict is true exactly when neither the Python check nor the disk check raises an issue |
| ServerCheck.IssuesFrom | site_creator/server_check.py:85-176 | the same over any result map |
| ServerCheck.CheckServerStatus | site_creator/server_check.py:48-190 | runs the nine check commands as one batch; the outcome is `Status` of what came back |
| ServerCheck.Classify | site_creator/server_check.py:75-190 | the analysis of a result map equals `Status` |
| ServerCheck.Tally | site_creator/server_check.py:85-163 | the issues are Python's then the disk's; the warnings are port, Flask, disk, nginx, in that order |
| ServerCheck.AutoCleanupServer | site_creator/server_check.py:192-210 | runs the four clean-up commands as one batch; the outcome is `CleanupStatus` |
| ServerCheck.CleanupOutcome | site_creator/server_check.py:203-210 | the clean-up succeeds exactly when the session opens and no command raises; otherwise the message carries the error |
| Upload.ParentOps | site_creator/upload.py:31-37 | at most one mkdir, of the target's directory |
| Upload.UploadServer | site_creator/upload.py:5-66 | the trace grows by `UploadRun` and the result is its success flag |
| Upload.PutWithParent | site_creator/upload.py:26-39 | the parent mkdir, whose failure is ignored, then the put; success is the put's |
| Upload.UploadFile | site_creator/upload.py:26-39 | a file job makes only the target's directory (not empty, not `/`), then one put; no command runs; success is the put's |
| Upload.UploadFileParent | site_creator/upload.py:27-34 | for a plain directory and file name, the directory made is `remote` |
| Upload.UploadFolder | site_creator/upload.py:40-51 | a folder job runs `rm -rf remote/item` and makes `remote/item` first; a failed mkdir stops it; a completed one puts every file, each from its local path, and makes every subdirectory |
| Upload.UploadOk | site_creator/upload.py:20-66 | success means: a session, a file or a folder whose directory was made, and every put succeeded |
| Upload.Missing | site_creator/upload.py:175-181 | the missing-files list is empty exactly when both required paths exist |
| Upload.Stages | site_creator/upload.py:111-173 | the staged part never reports invalid input or missing files |
| Upload.UploadBundle | site_creator/upload.py:123-140 | the trace grows by `ZipStage`: upload the bundle, then the unzip session |
| Upload.UploadStatic | site_creator/upload.py:122-164 | the trace grows by `StaticStage` |
| Upload.Upload | site_creator/upload.py:92-184 | the trace grows by `UploadPlan`, and the outcome is its outcome |
| Upload.UploadStages | site_creator/upload.py:111-173 | the trace grows by `Stages` |
| Upload.NothingUnlessReady | site_creator/upload.py:100-111 | no remote operation unless every input is filled in and both local paths exist; invalid input exactly for an empty field; missing files are named |
| Upload.StagesChained | site_creator/upload.py:114-173 | `white.html` only after the project succeeded, static only after `white.html`; success exactly when all three succeeded |
| Upload.UnzipOnlyAfterUpload | site_creator/upload.py:126-140 | the unzip command runs exactly when the bundle upload succeeded and the separate unzip session then opened |
| Upload.NoUnzipInUpload | site_creator/upload.py:5-66 | `upload_server` itself never issues the unzip command |
| Upload.BundleStage | site_creator/upload.py:123-140 | a bundle file gives the mkdir of `/root/project`, the put to `/root/project/static.zip`, and the unzip exactly when that put succeeded and the unzip session opened; the stage succeeds exactly when the put does, whatever becomes of the unzip |
| Upload.BundlePreferred | site_creator/upload.py:123-147 | when `static.zip` exists, the `static` folder makes no difference |
| Upload.NoStaticSkips | site_creator/upload.py:162-164 | with neither a bundle nor a folder, nothing is sent and the stage succeeds |
| BlackUpload.Upload | site_creator/black_upload.py:66-82 | the trace grows by `BlackPlan`, and the outcome is its outcome |
| BlackUpload.NothingUnlessReady | site_creator/black_upload.py:73-82 | invalid input exactly for an empty field, clean-up needed exactly for a missing path; neither touches the server |
| BlackUpload.FilePage | site_creator/black_upload.py:20-78 | a file page is one put to `/root/black.html`, with no mkdir; the copy follows exactly when the put succeeded and the copy's own session opened; the page counts as uploaded whenever the put succeeded, and a failed put ends in `exit()` |
| BlackUpload.CopyIssued | site_creator/black_upload.py:44-64 | when its session opens, the copy command goes out once, whatever it replies; otherwise nothing goes out |
| BlackUpload.UploadRunsNothing | site_creator/black_upload.py:4-31 | `upload_server` never runs a command |
| BlackUpload.CopiesOnlyAfterUpload | site_creator/black_upload.py:36-78 | the copy into the templates is the only command, and it runs exactly when the upload succeeded and the copy's own session opened; after `exit()` nothing runs |
| BlackUpload.UploadedIff | site_creator/black_upload.py:73-78 | the page counts as uploaded exactly when the inputs are given, the upload's session opens, the path is a file or a folder whose directory was made, and every put succeeded; the copy's session never matters |
| BlackServer.BlackServerControl | site_creator/black_server.py:197-206 | the trace grows by the config write and then the single restart batch |
| BlackServer.BlackControlIssues | site_creator/black_server.py:193-206 | at most two commands go out, each over its own session: the config write when that session opens, then `sudo systemctl restart flask` when its session opens; the nginx file is never written |
| BlackServer.BlackConfig | site_creator/black_server.py:199-204 | the written configuration reads back `SITE` = domain, `BLACK` empty, `BLACK_LIST` = links |
| Ui.FirstMissingIndex | site_creator/ui.py:272-276 | every field before the index is filled in, and the field at the index, if any, is blank |
| Ui.FirstMissingAt | site_creator/ui.py:272-278 | a scan that stops at a blank field, or runs off the end, has found the first blank field, or none |
| Ui.ScanFields | site_creator/ui.py:272-276 | the loop checks the fields in order and stops at the first blank one: every field before the returned index is filled in, and the field at it, if any, is blank |
| Ui.Window.ValidateInputs | site_creator/ui.py:256-278 | the result is true exactly when no required field is blank; the first blank field gets the warning and the focus |
| Ui.Window.OnButtonClick | site_creator/ui.py:209-248 | the new screen is `Click` of the old one: a warning when modules are missing, the validation warning, or exactly one dispatched job |
| Ui.TableCovers | site_creator/ui.py:258-270 | the table covers exactly buttons 1 to 8 |
| Ui.ValidationIff | site_creator/ui.py:269-278 | buttons outside the table pass; inside it, validation fails exactly when a required field is blank, and it reports the first blank one in table order |
| Ui.ClickStartsAtMostOne | site_creator/ui.py:211-248 | no job unless the modules loaded and validation passed; then buttons 1–8 start exactly one job; a refused click shows one warning |
| Ui.DispatchedRequired | site_creator/ui.py:220-267 | each button hands its job exactly its required fields, in table order |
| Ui.DispatchedFilledIn | site_creator/ui.py:220-278 | only filled-in values reach the operations |
| Ui.KeysDistinct | site_creator/ui.py:93-147 | the six dictionary keys are distinct |

## Left out

- **Console and GUI output.** `print`, message boxes, the status bar and the
  dialogs' wording are not modelled. A warning dialog is a `Notice`. The status
  bar text and the critical dialog for an exception inside a job are not
  modelled.
- **The operations behind buttons 1, 2, 4 and 6.** `clean_folder`,
  `clean_html`, `clean` and `domain_control` are not part of this model. The
  dispatch records only which of them would run, and with which fields.
- **Sessions.** Opening and closing sessions is not recorded. Every routine
  opens its own session, and one that cannot open issues nothing. Sessions
  are told apart by routine and arguments, so two calls with the same
  arguments get the same connection outcome, as they get the same replies.
  `edit_config` sessions are told apart by name only, not by the data
  written.
- **Output decoding.** Decoding and `recv_exit_status` are not modelled. A
  reply is either an exception (`Raised`) or completed text with an exit
  status.
- **Local file system.** Local file system effects are inputs:
  - the tree at a path is a `Local` value;
  - a listing is given as a sequence, and the order of `os.listdir` is taken
    as given;
  - `shutil.make_archive` is assumed to produce a file at `static.zip`.
- **`get_folders_in_path`.** It is in `server.py` and `black_server.py`. It
  is not called by any modelled routine.
- **Key collision in `run_check_commands`.** A command literally named
  `error` would collide with the error key of its result dictionary. The
  model keeps the two apart.
- **Text semantics.** `IsSpace` is exactly Python's `str.isspace`. `\d` is
  ASCII digits only, where Python's `re` also accepts other Unicode decimal
  digits. `lower()` is exact
  only for ASCII letters.
- ServerCheck.Record: keeps the raw streams; the `strip()` that
  `run_check_commands` applies happens when the output is read
  (`Output()`, `Error()`).
- **Failed `edit_config` and `run_commands`.** A failure in either is only
  printed. The model records the operations issued and no result.
- **Cleanup gating.** `check_server_status` and `auto_cleanup_server` are
  not called by `server_control`. Nothing in the model gates one on another.
