/**
  The deployment driver of `server.py`: the command batches, writing the two
  rendered files (`edit_config`), uploading a file or folder (`upload_server`)
  and the fixed phase order of `server_control`. Every function opens its own
  SSH session, which opens or not independently of the others; a session that
  cannot be opened issues nothing.
*/
module Server {
  import opened Wrappers
  import opened Text
  import opened Remote
  import opened Mirror
  import opened Render

  // ---------------------------------------------------------------------------
  // run_commands

  method RunCommands(h: Host, commands: seq<string>)
    modifies h
    ensures h.trace == old(h.trace) + Batch(h.oracle, commands)
  {
    if !h.oracle.Opens(RunSession(commands)) {
      assert h.trace + [] == h.trace;
      return;
    }
    ghost var issued := IssueUntilRaised(h.oracle, commands);
    assert Batch(h.oracle, commands) == issued;
    var i := 0;
    while i < |commands|
      invariant 0 <= i <= |commands|
      invariant old(h.trace) + IssueUntilRaised(h.oracle, commands)
             == h.trace + IssueUntilRaised(h.oracle, commands[i..])
    {
      assert commands[i..][0] == commands[i] && commands[i..][1..] == commands[i + 1..];
      var reply := h.ExecCommand(commands[i]);
      if reply.Raised? {
        return;
      }
      i := i + 1;
    }
    assert commands[i..] == [];
  }

  /** A batch is only as long as its command list, and is a prefix of it. */
  lemma BatchPrefix(o: Oracle, commands: seq<string>)
    ensures |Batch(o, commands)| <= |commands|
    ensures Batch(o, commands) == Commands(commands[..|Batch(o, commands)|])
  {
    if o.Opens(RunSession(commands)) {
      IssuePrefix(o, commands);
    } else {
      assert commands[..0] == [];
    }
  }

  /** The commands issued once connected are a prefix of the list. */
  lemma {:induction false} IssuePrefix(o: Oracle, commands: seq<string>)
    ensures |IssueUntilRaised(o, commands)| <= |commands|
    ensures IssueUntilRaised(o, commands) == Commands(commands[..|IssueUntilRaised(o, commands)|])
    decreases |commands|
  {
    if commands != [] && o.ReplyTo(commands[0]).Completed? {
      var rest := IssueUntilRaised(o, commands[1..]);
      IssuePrefix(o, commands[1..]);
      var issued := commands[..1 + |rest|];
      assert issued[0] == commands[0] && issued[1..] == commands[1..][..|rest|];
      assert Commands(issued) == [Exec(commands[0])] + Commands(issued[1..]);
    } else if commands != [] {
      assert commands[..1] == [commands[0]];
    } else {
      assert commands[..0] == [];
    }
  }

  /** What a batch issues depends only on its own session and on the replies to
      its own commands. */
  lemma BatchDependsOnOwnReplies(o1: Oracle, o2: Oracle, commands: seq<string>)
    requires o1.Opens(RunSession(commands)) == o2.Opens(RunSession(commands))
    requires forall i | 0 <= i < |commands| :: o1.ReplyTo(commands[i]) == o2.ReplyTo(commands[i])
    ensures Batch(o1, commands) == Batch(o2, commands)
  {
    IssueDependsOnOwnReplies(o1, o2, commands);
  }

  /** Once connected, the commands issued depend only on their own replies. */
  lemma {:induction false} IssueDependsOnOwnReplies(o1: Oracle, o2: Oracle, commands: seq<string>)
    requires forall i | 0 <= i < |commands| :: o1.ReplyTo(commands[i]) == o2.ReplyTo(commands[i])
    ensures IssueUntilRaised(o1, commands) == IssueUntilRaised(o2, commands)
    decreases |commands|
  {
    if commands != [] {
      assert forall i | 0 <= i < |commands[1..]| :: commands[1..][i] == commands[i + 1];
      IssueDependsOnOwnReplies(o1, o2, commands[1..]);
    }
  }

  // ---------------------------------------------------------------------------
  // edit_config

  /** What `edit_config(name, data)` issues: the one write command for `name`;
      nothing when the connection fails or `name` is unknown (the `KeyError` is
      caught). The reply is only printed. */
  function EditOps(o: Oracle, name: string, d: SiteData): seq<Op> {
    if !o.Opens(EditSession(name)) then []
    else
      match ArtifactNamed(name)
      case None => []
      case Some(a) => [Exec(EditCommand(a, d))]
  }

  method EditConfig(h: Host, name: string, d: SiteData)
    modifies h
    ensures h.trace == old(h.trace) + EditOps(h.oracle, name, d)
  {
    if !h.oracle.Opens(EditSession(name)) {
      return;
    }
    var a := ArtifactNamed(name);
    if a.None? {
      return;
    }
    var _ := h.ExecCommand(EditCommand(a.value, d));
  }

  /** Once connected, `edit_config` for a known name issues exactly one command;
      run by the shell, it writes the lines of `get_content(name, data)` to
      `/tmp/<name>_config` and then moves that file onto `get_filepath(name)`. */
  lemma EditConfigWrites(o: Oracle, name: string, d: SiteData)
    requires o.Opens(EditSession(name)) && ArtifactNamed(name).Some?
    requires Clean(OrEmpty(d.domain)) && Clean(OrEmpty(d.black)) && Clean(OrEmpty(d.blackLink))
    ensures |EditOps(o, name, d)| == 1 && EditOps(o, name, d)[0].Exec?
    ensures var script := ParseWrite(EditOps(o, name, d)[0].command);
      && script.Some?
      && script.value.temp == "/tmp/" + name + "_config"
      && Join(script.value.body) == GetContent(name, d).value
      && script.value.source == script.value.temp
      && script.value.target == GetFilepath(name).value
  {
    var a := ArtifactNamed(name).value;
    assert Name(a) == name;
    EditOpsNamed(o, name, a, d);
    EditCommandWrites(a, d);
  }

  /** Once connected, a known name issues exactly its write command. */
  lemma EditOpsNamed(o: Oracle, name: string, a: Artifact, d: SiteData)
    requires o.Opens(EditSession(name)) && name == Name(a)
    ensures EditOps(o, name, d) == [Exec(EditCommand(a, d))]
  {
    assert ArtifactNamed(name) == Some(a);
  }

  /** What `edit_config` issues depends on its own session alone, never on replies. */
  lemma EditOpsOnConnection(o1: Oracle, o2: Oracle, name: string, d: SiteData)
    requires o1.Opens(EditSession(name)) == o2.Opens(EditSession(name))
    ensures EditOps(o1, name, d) == EditOps(o2, name, d)
  {
  }

  /** An unknown name, or a failed connection, issues nothing at all. */
  lemma EditConfigNothing(o: Oracle, name: string, d: SiteData)
    requires !o.Opens(EditSession(name)) || ArtifactNamed(name).None?
    ensures EditOps(o, name, d) == []
  {
  }

  // ---------------------------------------------------------------------------
  // upload_server

  /** What `upload_server(local, remote, ..., item)` issues and returns: a
      local file is put to `remote/item`; anything else makes the directory
      `remote/item` (a failure there aborts) and mirrors the local listing into
      it; listing anything but a directory raises. */
  function UploadRun(o: Oracle, local: string, tree: Local, remote: string, item: string): Run {
    var target := remote + "/" + item;
    if !o.Opens(TransferSession(local, remote, item)) then Run([], false)
    else if tree.LocalFile? then Run([Put(local, target)], o.PutOk(local, target))
    else if !o.MkdirOk(target) then Run([Mkdir(target)], false)
    else if !tree.LocalDir? then Run([Mkdir(target)], false)
    else
      var m := MirrorAll(o, local, tree.entries, target);
      Run([Mkdir(target)] + m.ops, m.ok)
  }

  method UploadServer(h: Host, local: string, tree: Local, remote: string, item: string) returns (ok: bool)
    modifies h
    ensures h.trace == old(h.trace) + UploadRun(h.oracle, local, tree, remote, item).ops
    ensures ok == UploadRun(h.oracle, local, tree, remote, item).ok
  {
    if !h.oracle.Opens(TransferSession(local, remote, item)) {
      return false;
    }
    var target := remote + "/" + item;
    if tree.LocalFile? {
      ok := h.PutFile(local, target);
      return;
    }
    var made := h.MakeDir(target);
    if !made || !tree.LocalDir? {
      return false;
    }
    ok := MirrorFolder(h, local, tree.entries, target);
  }

  /** A local file becomes exactly one put, to `remote + '/' + item`; the upload
      succeeds exactly when that put does. */
  lemma UploadFile(o: Oracle, local: string, remote: string, item: string)
    requires o.Opens(TransferSession(local, remote, item))
    ensures var r := UploadRun(o, local, LocalFile, remote, item);
      && PutTargets(r.ops) == [remote + "/" + item]
      && MkdirTargets(r.ops) == [] && ExecCommands(r.ops) == []
      && (r.ok <==> o.PutOk(local, remote + "/" + item))
  {
    var r := UploadRun(o, local, LocalFile, remote, item);
    assert r.ops[1..] == [];
  }

  /** A folder upload first makes `remote/item`, and stops there when that fails;
      a completed one puts every file of the folder, from its local path, under
      `remote/item` and makes every subdirectory there, after `remote/item`
      itself. */
  lemma UploadFolder(o: Oracle, local: string, entries: seq<Entry>, remote: string, item: string)
    requires o.Opens(TransferSession(local, remote, item))
    ensures var r := UploadRun(o, local, LocalDir(entries), remote, item);
      && r.ops[0] == Mkdir(remote + "/" + item)
      && (!o.MkdirOk(remote + "/" + item) ==> r == Run([Mkdir(remote + "/" + item)], false))
      && (r.ok ==>
            && PutTargets(r.ops) == Under(remote + "/" + item, FilePaths(entries))
            && MkdirTargets(r.ops) == [remote + "/" + item] + Under(remote + "/" + item, DirPaths(entries))
            && ExecCommands(r.ops) == []
            && Transfers(r.ops) == FileTransfers(local, entries, remote + "/" + item))
  {
    var target := remote + "/" + item;
    var r := UploadRun(o, local, LocalDir(entries), remote, item);
    if r.ok {
      var m := MirrorAll(o, local, entries, target);
      MirrorTargets(o, local, entries, target);
      TargetsAppend([Mkdir(target)], m.ops);
      MirrorTransfers(o, local, entries, target);
      TransfersAppend([Mkdir(target)], m.ops);
      assert [Mkdir(target)][1..] == [];
    }
  }

  /** An upload succeeds only over a working connection, from a path that is a
      file or a directory, and exactly when none of its puts fails. */
  lemma UploadOk(o: Oracle, local: string, tree: Local, remote: string, item: string)
    ensures var r := UploadRun(o, local, tree, remote, item);
      r.ok <==> o.Opens(TransferSession(local, remote, item))
                && (tree.LocalFile? || (tree.LocalDir? && o.MkdirOk(remote + "/" + item)))
                && PutsSucceed(o, r.ops)
  {
    var target := remote + "/" + item;
    var r := UploadRun(o, local, tree, remote, item);
    var open := o.Opens(TransferSession(local, remote, item));
    if open && tree.LocalDir? && o.MkdirOk(target) {
      var m := MirrorAll(o, local, tree.entries, target);
      MirrorFailsOnlyAtPut(o, local, tree.entries, target);
      PutsSucceedAppend(o, [Mkdir(target)], m.ops);
    } else if open && tree.LocalFile? {
      assert r.ops[0] == Put(local, target);
    }
  }

  // ---------------------------------------------------------------------------
  // server_control

  const PreCheckCommands: seq<string> := [
    "echo '=== 서버 사전 점검 시작 ==='",
    "python3 --version",
    "python3 -m pip --version",
    "echo '=== 포트 5000 사용 중인 프로세스 확인 ==='",
    "sudo netstat -tlnp | grep :5000 || echo '포트 "
    + "5000 사용 중인 프로세스 없음'",
    "echo '=== 기존 nginx 설정 확인 ==='",
    "sudo nginx -t 2>/dev/null || echo 'nginx 설정 파일 "
    + "없음'",
    "echo '=== 기존 systemd 서비스 확인 ==='",
    "sudo systemctl list-units --type=service | grep "
    + "flask || echo '기존 flask 서비스 없음'",
    "echo '=== 디스크 공간 확인 ==='",
    "df -h /root/",
    "echo '=== 기존 프로젝트 디렉토리 확인 ==='",
    "ls -la /root/project/ 2>/dev/null || echo '프로젝트 "
    + "디렉토리 없음'",
    "echo '=== 사전 점검 완료 ==='"
  ]

  const CleanupCommands: seq<string> := [
    "sudo systemctl stop flask 2>/dev/null || echo "
    + "'기존 flask 서비스 없음'",
    "sudo systemctl disable flask 2>/dev/null || "
    + "echo '기존 flask 서비스 없음'",
    "sudo pkill -f 'gunicorn.*5000' 2>/dev/null || "
    + "echo '기존 gunicorn 프로세스 없음'"
  ]

  const InitCommands: seq<string> := [
    "apt-get update",
    "apt-get install curl nginx letsencrypt certbot "
    + "python3-certbot-nginx -y",
    "apt-get install python3 python3-pip python3-dev "
    + "build-essential libssl-dev libffi-dev "
    + "python3-setuptools -y",
    "apt-get install python3-venv -y",
    "apt-get install unzip",
    "mkdir -p /root/static",
    "cd /root/project && rm -rf venv && python3 -m "
    + "venv venv && source venv/bin/activate && pip "
    + "install --upgrade pip && pip install "
    + "--no-cache-dir -r requirements.txt",
    "cp -r /root/static /root/project/",
    "cp -r /root/white.html /root/project/templates/",
    "\n"
    + "cat <<EOT> /root/project/wsgi.py\n"
    + "import sys\n"
    + "import os\n"
    + "\n"
    + "# 현재 디렉토리를 Python 경로에 추가\n"
    + "sys.path.insert(0, "
    + "os.path.dirname(os.path.abspath(__file__)))\n"
    + "\n"
    + "from flaskapp import app\n"
    + "\n"
    + "if __name__ == \"__main__\":\n"
    + "    app.run()\n"
    + "EOT\n"
    + "    ",
    "\n"
    + "    cat <<EOT> "
    + "/etc/systemd/system/flask.service\n"
    + "[Unit]\n"
    + "Description=Gunicorn instance to serve Flask\n"
    + "After=network.target\n"
    + "[Service]\n"
    + "User=root\n"
    + "Group=www-data\n"
    + "WorkingDirectory=/root/project\n"
    + "Environment=\"PATH=/root/project/venv/bin\"\n"
    + "ExecStart=/root/project/venv/bin/gunicorn "
    + "--bind 0.0.0.0:5000 --pythonpath /root/project "
    + "wsgi:app\n"
    + "[Install]\n"
    + "WantedBy=multi-user.target\n"
    + "EOT\n",
    "chown -R root:www-data /root/project",
    "chmod -R 775 /root/project",
    "systemctl daemon-reload",
    "systemctl start flask",
    "systemctl enable flask",
    "sudo ufw allow 'Nginx HTTP'",
    "sudo ufw allow ssh",
    "sudo ufw allow 'Nginx Full'"
  ]

  const ProjectStartCommands: seq<string> := [
    "systemctl daemon-reload",
    "sudo systemctl restart flask",
    "sudo service nginx restart"
  ]

  const VerificationCommands: seq<string> := [
    "echo '=== 서비스 상태 확인 ==='",
    "sudo systemctl status flask --no-pager",
    "echo '=== 포트 5000 리스닝 확인 ==='",
    "sudo netstat -tlnp | grep :5000",
    "echo '=== nginx 상태 확인 ==='",
    "sudo systemctl status nginx --no-pager",
    "echo '=== Flask 로그 확인 ==='",
    "sudo journalctl -u flask --no-pager -n 10",
    "echo '=== 검증 완료 ==='"
  ]

  /** The `data` of `server_control`: the domain, no black page, no black list. */
  function ControlData(domain: string): SiteData {
    SiteData(Some(domain), Some(""), Some(""))
  }

  /** Two batches run one after the other. */
  function Batches(o: Oracle, first: seq<string>, second: seq<string>): seq<Op> {
    Batch(o, first) + Batch(o, second)
  }

  /** Two files written one after the other. */
  function Edits(o: Oracle, first: string, second: string, d: SiteData): seq<Op> {
    EditOps(o, first, d) + EditOps(o, second, d)
  }

  /** Everything `server_control` does after the pre-check: cleanup and init,
      the nginx site and the configuration, start and verification. */
  function SetupOps(o: Oracle, domain: string): seq<Op> {
    Batches(o, CleanupCommands, InitCommands)
    + Edits(o, "nginx", "config", ControlData(domain))
    + Batches(o, ProjectStartCommands, VerificationCommands)
  }

  /** What `server_control(domain, ...)` issues: the pre-check batch and then the
      setup, whatever the pre-check reported (its outcome is only printed). */
  function ControlOps(o: Oracle, domain: string): seq<Op> {
    Batch(o, PreCheckCommands) + SetupOps(o, domain)
  }

  method RunBatches(h: Host, first: seq<string>, second: seq<string>)
    modifies h
    ensures h.trace == old(h.trace) + Batches(h.oracle, first, second)
  {
    RunCommands(h, first);
    RunCommands(h, second);
  }

  method RunEdits(h: Host, first: string, second: string, d: SiteData)
    modifies h
    ensures h.trace == old(h.trace) + Edits(h.oracle, first, second, d)
  {
    EditConfig(h, first, d);
    EditConfig(h, second, d);
  }

  method ServerControl(h: Host, domain: string)
    modifies h
    ensures h.trace == old(h.trace) + ControlOps(h.oracle, domain)
  {
    ghost var t := h.trace;
    RunCommands(h, PreCheckCommands);
    RunBatches(h, CleanupCommands, InitCommands);
    RunEdits(h, "nginx", "config", ControlData(domain));
    RunBatches(h, ProjectStartCommands, VerificationCommands);
    Regroup(t, Batch(h.oracle, PreCheckCommands), Batches(h.oracle, CleanupCommands, InitCommands),
            Edits(h.oracle, "nginx", "config", ControlData(domain)),
            Batches(h.oracle, ProjectStartCommands, VerificationCommands));
  }

  /** The trace grows one phase at a time; the phases group to the right. */
  lemma Regroup<T>(t: seq<T>, a: seq<T>, b: seq<T>, c: seq<T>, e: seq<T>)
    ensures t + a + b + c + e == t + (a + (b + c + e))
  {
  }

  /** Two batches whose sessions open and whose commands do not raise issue
      both command lists in full. */
  lemma BatchesIssueAll(o: Oracle, first: seq<string>, second: seq<string>)
    requires o.Opens(RunSession(first)) && o.Opens(RunSession(second))
    requires NoneRaise(o, first) && NoneRaise(o, second)
    ensures Batches(o, first, second) == Commands(first + second)
  {
    IssueAll(o, first);
    IssueAll(o, second);
    CommandsAppend(first, second);
  }

  /** Two batches depend only on their own sessions and the replies to their own commands. */
  lemma BatchesAgree(o1: Oracle, o2: Oracle, first: seq<string>, second: seq<string>)
    requires o1.Opens(RunSession(first)) == o2.Opens(RunSession(first))
    requires o1.Opens(RunSession(second)) == o2.Opens(RunSession(second))
    requires forall c | c in first + second :: o1.ReplyTo(c) == o2.ReplyTo(c)
    ensures Batches(o1, first, second) == Batches(o2, first, second)
  {
    forall i | 0 <= i < |first| ensures o1.ReplyTo(first[i]) == o2.ReplyTo(first[i]) {
      assert first[i] == (first + second)[i];
    }
    forall i | 0 <= i < |second| ensures o1.ReplyTo(second[i]) == o2.ReplyTo(second[i]) {
      assert second[i] == (first + second)[|first| + i];
    }
    BatchDependsOnOwnReplies(o1, o2, first);
    BatchDependsOnOwnReplies(o1, o2, second);
  }

  /** Every session `server_control` opens, one per phase, can be opened. */
  predicate ControlOpens(o: Oracle) {
    && o.Opens(RunSession(PreCheckCommands))
    && o.Opens(RunSession(CleanupCommands)) && o.Opens(RunSession(InitCommands))
    && o.Opens(EditSession("nginx")) && o.Opens(EditSession("config"))
    && o.Opens(RunSession(ProjectStartCommands)) && o.Opens(RunSession(VerificationCommands))
  }

  /** When every session opens and no command raises, `server_control` has the
      host run every command of every phase, in phase order: pre-check, cleanup
      and init, the nginx site and the configuration, start and verification. */
  lemma ControlIssuesAll(o: Oracle, domain: string)
    requires ControlOpens(o)
    requires NoneRaise(o, PreCheckCommands)
    requires NoneRaise(o, CleanupCommands) && NoneRaise(o, InitCommands)
    requires NoneRaise(o, ProjectStartCommands) && NoneRaise(o, VerificationCommands)
    ensures ControlOps(o, domain)
         == Commands(PreCheckCommands)
            + (Commands(CleanupCommands + InitCommands)
               + [Exec(EditCommand(Nginx, ControlData(domain))), Exec(EditCommand(Config, ControlData(domain)))]
               + Commands(ProjectStartCommands + VerificationCommands))
  {
    EditsNamed(o, ControlData(domain));
    PhasesIssueAll(o, PreCheckCommands, CleanupCommands, InitCommands, Edits(o, "nginx", "config", ControlData(domain)),
                   ProjectStartCommands, VerificationCommands);
  }

  /** Batches none of whose commands raise run all their commands, whatever
      comes between them. */
  lemma PhasesIssueAll(o: Oracle, pre: seq<string>, cleanup: seq<string>, init: seq<string>, between: seq<Op>,
                       start: seq<string>, verify: seq<string>)
    requires o.Opens(RunSession(pre)) && NoneRaise(o, pre)
    requires o.Opens(RunSession(cleanup)) && o.Opens(RunSession(init))
    requires o.Opens(RunSession(start)) && o.Opens(RunSession(verify))
    requires NoneRaise(o, cleanup) && NoneRaise(o, init) && NoneRaise(o, start) && NoneRaise(o, verify)
    ensures Batch(o, pre) + (Batches(o, cleanup, init) + between + Batches(o, start, verify))
         == Commands(pre) + (Commands(cleanup + init) + between + Commands(start + verify))
  {
    IssueAll(o, pre);
    BatchesIssueAll(o, cleanup, init);
    BatchesIssueAll(o, start, verify);
  }

  /** When both their sessions open, the two writes of `server_control` are the
      nginx site's and then the configuration's write commands. */
  lemma EditsNamed(o: Oracle, d: SiteData)
    requires o.Opens(EditSession("nginx")) && o.Opens(EditSession("config"))
    ensures Edits(o, "nginx", "config", d) == [Exec(EditCommand(Nginx, d)), Exec(EditCommand(Config, d))]
  {
    EditOpsNamed(o, "nginx", Nginx, d);
    EditOpsNamed(o, "config", Config, d);
    Pair(EditOps(o, "nginx", d), EditOps(o, "config", d), Exec(EditCommand(Nginx, d)), Exec(EditCommand(Config, d)));
  }

  lemma Pair<T>(a: seq<T>, b: seq<T>, x: T, y: T)
    requires a == [x] && b == [y]
    ensures a + b == [x, y]
  {
  }

  /** The pre-check gates nothing: whatever its commands report, raise or print,
      whether its own session opened or not, what follows it is the same, for
      it depends only on the setup's own sessions and on the replies to the
      setup's own commands. */
  lemma ControlNotGated(o1: Oracle, o2: Oracle, domain: string)
    requires o1.Opens(RunSession(CleanupCommands)) == o2.Opens(RunSession(CleanupCommands))
    requires o1.Opens(RunSession(InitCommands)) == o2.Opens(RunSession(InitCommands))
    requires o1.Opens(EditSession("nginx")) == o2.Opens(EditSession("nginx"))
    requires o1.Opens(EditSession("config")) == o2.Opens(EditSession("config"))
    requires o1.Opens(RunSession(ProjectStartCommands)) == o2.Opens(RunSession(ProjectStartCommands))
    requires o1.Opens(RunSession(VerificationCommands)) == o2.Opens(RunSession(VerificationCommands))
    requires forall c | c in CleanupCommands + InitCommands :: o1.ReplyTo(c) == o2.ReplyTo(c)
    requires forall c | c in ProjectStartCommands + VerificationCommands :: o1.ReplyTo(c) == o2.ReplyTo(c)
    ensures ControlOps(o1, domain)[|Batch(o1, PreCheckCommands)|..] == SetupOps(o1, domain)
    ensures SetupOps(o1, domain) == SetupOps(o2, domain)
  {
    BatchesAgree(o1, o2, CleanupCommands, InitCommands);
    BatchesAgree(o1, o2, ProjectStartCommands, VerificationCommands);
    EditOpsOnConnection(o1, o2, "nginx", ControlData(domain));
    EditOpsOnConnection(o1, o2, "config", ControlData(domain));
  }

  /** The configuration `server_control` writes names the domain and leaves the
      black page and the black list empty. */
  lemma ControlConfig(domain: string)
    requires Plain(domain)
    ensures var ls := Lines(GetContent("config", ControlData(domain)).value);
      && Setting(ls, "SITE") == Some(domain)
      && Setting(ls, "BLACK") == Some("")
      && Setting(ls, "BLACK_LIST") == Some("")
  {
    assert Plain("") by {
      StripTrimmed("");
    }
    ConfigRoundTrip(ControlData(domain));
  }
}
