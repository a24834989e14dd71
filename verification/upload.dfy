/**
  `upload.py`: the copy of `upload_server` that prepares the remote side
  itself (a parent directory for a file, a `rm -rf` before a folder), and
  `upload`, which sends the project, then `white.html`, then the static bundle,
  each stage only after the previous one succeeded.
*/
module Upload {
  import opened Text
  import opened Remote
  import opened Mirror

  /** What the local file system holds at each path; a path it does not
      list does not exist. */
  datatype Disk = Disk(entries: map<string, Local>)
  {
    function At(path: string): Local {
      if path in entries then entries[path] else Absent
    }
  }

  // ---------------------------------------------------------------------------
  // upload_server

  /** The command that clears the target of a folder upload. */
  function RemoveCommand(remote: string, item: string): string {
    "rm -rf " + remote + "/" + item
  }

  /** The directory made before a file is put: the target's directory, unless
      it is empty or the root. */
  function ParentOps(target: string): (ops: seq<Op>)
    ensures |ops| <= 1
    ensures ops != [] ==> ops == [Mkdir(Dirname(target))]
  {
    var dir := Dirname(target);
    if dir != "" && dir != "/" then [Mkdir(dir)] else []
  }

  /** What `upload_server(local, remote, ..., item)` issues and returns. A
      local file: the target's directory is made (a failure there is ignored)
      and the file put to `remote/item`. Anything else: `rm -rf remote/item` is
      run (its failure is ignored), the folder `remote/item` is made (a failure
      there aborts), and the local listing is mirrored into it; listing
      anything but a directory raises. */
  function UploadRun(o: Oracle, local: string, tree: Local, remote: string, item: string): Run {
    var target := remote + "/" + item;
    if !o.Opens(TransferSession(local, remote, item)) then Run([], false)
    else if tree.LocalFile? then
      Run(ParentOps(target) + [Put(local, target)], o.PutOk(local, target))
    else
      var prepare := [Exec(RemoveCommand(remote, item)), Mkdir(target)];
      if !o.MkdirOk(target) || !tree.LocalDir? then Run(prepare, false)
      else
        var m := MirrorAll(o, local, tree.entries, target);
        Run(prepare + m.ops, m.ok)
  }

  method UploadServer(h: Host, local: string, tree: Local, remote: string, item: string) returns (ok: bool)
    modifies h
    ensures h.trace == old(h.trace) + UploadRun(h.oracle, local, tree, remote, item).ops
    ensures ok == UploadRun(h.oracle, local, tree, remote, item).ok
  {
    if !h.oracle.Opens(TransferSession(local, remote, item)) {
      return false;
    }
    var target := remote + "/" + item;
    if tree.LocalFile? {
      ok := PutWithParent(h, local, target);
      return;
    }
    var _ := h.ExecCommand(RemoveCommand(remote, item));
    var made := h.MakeDir(target);
    if !made || !tree.LocalDir? {
      return false;
    }
    ok := MirrorFolder(h, local, tree.entries, target);
  }

  /** The file branch of `upload_server`: the parent directory, then the put. */
  method PutWithParent(h: Host, local: string, target: string) returns (ok: bool)
    modifies h
    ensures h.trace == old(h.trace) + ParentOps(target) + [Put(local, target)]
    ensures ok == h.oracle.PutOk(local, target)
  {
    var dir := Dirname(target);
    if dir != "" && dir != "/" {
      var _ := h.MakeDir(dir);
    }
    ok := h.PutFile(local, target);
  }

  /** A file job: at most one directory is made, the target's own directory
      when that is neither empty nor the root, and then exactly one put, to
      `remote + '/' + item`; nothing is run. The job succeeds exactly when the
      put does. */
  lemma UploadFile(o: Oracle, local: string, remote: string, item: string)
    requires o.Opens(TransferSession(local, remote, item))
    ensures var r := UploadRun(o, local, LocalFile, remote, item);
      var dir := Dirname(remote + "/" + item);
      && PutTargets(r.ops) == [remote + "/" + item]
      && MkdirTargets(r.ops) == (if dir != "" && dir != "/" then [dir] else [])
      && ExecCommands(r.ops) == []
      && r.ops[|r.ops| - 1] == Put(local, remote + "/" + item)
      && (r.ok <==> o.PutOk(local, remote + "/" + item))
  {
    var target := remote + "/" + item;
    var pre := ParentOps(target);
    TargetsAppend(pre, [Put(local, target)]);
    assert [Put(local, target)][1..] == [];
    if pre != [] {
      assert pre[1..] == [];
    }
  }

  /** With a plain remote directory and a plain file name, the directory made
      is the remote directory itself. */
  lemma UploadFileParent(remote: string, item: string)
    requires remote != [] && remote[|remote| - 1] != '/'
    requires '/' !in item
    ensures ParentOps(remote + "/" + item) == [Mkdir(remote)]
  {
    DirnameOfChild(remote, item);
  }

  /** A folder job runs `rm -rf remote/item` before making `remote/item`, and
      both before anything else; when that mkdir fails nothing more happens. A
      completed job puts every file of the folder, from its local path, under
      `remote/item` and makes every subdirectory there. */
  lemma UploadFolder(o: Oracle, local: string, entries: seq<Entry>, remote: string, item: string)
    requires o.Opens(TransferSession(local, remote, item))
    ensures var r := UploadRun(o, local, LocalDir(entries), remote, item);
      var target := remote + "/" + item;
      && r.ops[..2] == [Exec(RemoveCommand(remote, item)), Mkdir(target)]
      && (!o.MkdirOk(target) ==> r == Run([Exec(RemoveCommand(remote, item)), Mkdir(target)], false))
      && (r.ok ==>
            && PutTargets(r.ops) == Under(target, FilePaths(entries))
            && MkdirTargets(r.ops) == [target] + Under(target, DirPaths(entries))
            && ExecCommands(r.ops) == [RemoveCommand(remote, item)]
            && Transfers(r.ops) == FileTransfers(local, entries, target))
  {
    var target := remote + "/" + item;
    var prepare := [Exec(RemoveCommand(remote, item)), Mkdir(target)];
    var r := UploadRun(o, local, LocalDir(entries), remote, item);
    if o.MkdirOk(target) {
      var m := MirrorAll(o, local, entries, target);
      assert (prepare + m.ops)[..2] == prepare;
      if r.ok {
        MirrorTargets(o, local, entries, target);
        TargetsAppend(prepare, m.ops);
        assert prepare[1..][1..] == [];
        MirrorTransfers(o, local, entries, target);
        TransfersAppend(prepare, m.ops);
      }
    }
  }

  /** An upload succeeds only over a working connection, from a file or from a
      directory whose remote folder could be made, and exactly when none of its
      puts fails; a failed `rm -rf` or a failed parent mkdir never matters. */
  lemma UploadOk(o: Oracle, local: string, tree: Local, remote: string, item: string)
    ensures var r := UploadRun(o, local, tree, remote, item);
      r.ok <==> o.Opens(TransferSession(local, remote, item))
                && (tree.LocalFile? || (tree.LocalDir? && o.MkdirOk(remote + "/" + item)))
                && PutsSucceed(o, r.ops)
  {
    var target := remote + "/" + item;
    var r := UploadRun(o, local, tree, remote, item);
    var open := o.Opens(TransferSession(local, remote, item));
    if open && tree.LocalDir? && o.MkdirOk(target) {
      var prepare := [Exec(RemoveCommand(remote, item)), Mkdir(target)];
      var m := MirrorAll(o, local, tree.entries, target);
      MirrorFailsOnlyAtPut(o, local, tree.entries, target);
      PutsSucceedAppend(o, prepare, m.ops);
    } else if open && tree.LocalFile? {
      var pre := ParentOps(target);
      PutsSucceedAppend(o, pre, [Put(local, target)]);
      assert PutsSucceed(o, pre);
      assert [Put(local, target)][0] == Put(local, target);
    }
  }

  // ---------------------------------------------------------------------------
  // upload

  /** Where `upload` stopped; each corresponds to the last line it prints. */
  datatype Outcome =
    | InvalidInput                       // an input field is empty
    | MissingFiles(missing: seq<string>) // page_default or white.html is absent
    | ProjectFailed
    | WhiteFailed
    | StaticFailed
    | Uploaded

  /** The remote operations of a call to `upload` and where it stopped. */
  datatype Deploy = Deploy(ops: seq<Op>, outcome: Outcome)

  /** The remote directories, all under the server path `/root`. */
  const ServerPath := "/root"
  const ProjectDir := "/root/project"
  const TemplatesDir := "/root/project/templates"

  /** Unpacks the bundle in place and removes the archive. */
  const UnzipCommand := "cd /root/project && unzip -o static.zip" + " -d static/ && rm static.zip"

  /** The local paths `upload` reads, from the working directory and the template path. */
  function ProjectPath(cwd: string): string { PathJoin(cwd, "page_default") }
  function WhitePath(path: string): string { PathJoin(path, "white.html") }
  function StaticPath(path: string): string { PathJoin(path, "static") }
  function ZipPath(path: string): string { PathJoin(path, "static.zip") }

  /** The names `upload` reports when a required local file is absent. */
  function Missing(project: Local, white: Local): (names: seq<string>)
    ensures names == [] <==> project.Exists() && white.Exists()
  {
    (if project.Exists() then [] else ["page_default 폴더"])
    + (if white.Exists() then [] else ["white.html 파일"])
  }

  /** The separate session (`ssh_temp`) opened to run the unzip command. */
  const UnzipSession := RunSession([UnzipCommand])

  /** What that session issues: the command when it opens, nothing otherwise;
      a refused connection or an exception there is only printed. */
  function Unzip(o: Oracle): seq<Op> {
    if o.Opens(UnzipSession) then [Exec(UnzipCommand)] else []
  }

  /** Uploading a bundle to `/root/project/static.zip`, then unpacking it
      only after that upload succeeded; the stage succeeds with the upload,
      whatever becomes of the unzip. */
  function ZipStage(o: Oracle, zip: string, tree: Local): Run {
    var r := UploadRun(o, zip, tree, ProjectDir, "static.zip");
    if r.ok then Run(r.ops + Unzip(o), true) else r
  }

  /** The static stage: an existing `static.zip` is sent as it is; otherwise an
      existing `static` folder is first archived into `static.zip` (a local
      file from then on); with neither, the stage is skipped and counts as
      done. */
  function StaticStage(o: Oracle, fs: Disk, path: string): Run {
    var zip := ZipPath(path);
    if fs.At(zip).Exists() then ZipStage(o, zip, fs.At(zip))
    else if fs.At(StaticPath(path)).Exists() then ZipStage(o, zip, LocalFile)
    else Run([], true)
  }

  /** What `upload(path, domain, server, server_pass)` does, with `fs` telling
      what lies at each local path and `cwd` the working directory: the input
      checks, then the three stages. */
  function UploadPlan(o: Oracle, fs: Disk, cwd: string,
                      path: string, domain: string, server: string, password: string): Deploy
  {
    var project := ProjectPath(cwd);
    var white := WhitePath(path);
    if path == "" || domain == "" || server == "" || password == "" then Deploy([], InvalidInput)
    else if !(fs.At(project).Exists() && fs.At(white).Exists()) then
      Deploy([], MissingFiles(Missing(fs.At(project), fs.At(white))))
    else Stages(o, fs, cwd, path)
  }

  /** The project, then `white.html`, then the static stage; a failed stage
      ends the call. */
  function Stages(o: Oracle, fs: Disk, cwd: string, path: string): (d: Deploy)
    ensures !d.outcome.InvalidInput? && !d.outcome.MissingFiles?
  {
    var first := UploadRun(o, ProjectPath(cwd), fs.At(ProjectPath(cwd)), ServerPath, "project");
    if !first.ok then Deploy(first.ops, ProjectFailed)
    else
      var second := UploadRun(o, WhitePath(path), fs.At(WhitePath(path)), TemplatesDir, "white.html");
      if !second.ok then Deploy(first.ops + second.ops, WhiteFailed)
      else
        var third := StaticStage(o, fs, path);
        Deploy(first.ops + second.ops + third.ops, if third.ok then Uploaded else StaticFailed)
  }

  method UploadBundle(h: Host, zip: string, tree: Local) returns (ok: bool)
    modifies h
    ensures h.trace == old(h.trace) + ZipStage(h.oracle, zip, tree).ops
    ensures ok == ZipStage(h.oracle, zip, tree).ok
  {
    ok := UploadServer(h, zip, tree, ProjectDir, "static.zip");
    if ok && h.oracle.Opens(UnzipSession) {
      var _ := h.ExecCommand(UnzipCommand);
    }
  }

  method UploadStatic(h: Host, fs: Disk, path: string) returns (ok: bool)
    modifies h
    ensures h.trace == old(h.trace) + StaticStage(h.oracle, fs, path).ops
    ensures ok == StaticStage(h.oracle, fs, path).ok
  {
    var zip := ZipPath(path);
    if fs.At(zip).Exists() {
      ok := UploadBundle(h, zip, fs.At(zip));
    } else if fs.At(StaticPath(path)).Exists() {
      ok := UploadBundle(h, zip, LocalFile);
    } else {
      ok := true;
    }
  }

  method Upload(h: Host, fs: Disk, cwd: string,
                path: string, domain: string, server: string, password: string)
    returns (outcome: Outcome)
    modifies h
    ensures h.trace == old(h.trace) + UploadPlan(h.oracle, fs, cwd, path, domain, server, password).ops
    ensures outcome == UploadPlan(h.oracle, fs, cwd, path, domain, server, password).outcome
  {
    var project := ProjectPath(cwd);
    var white := WhitePath(path);
    if path == "" || domain == "" || server == "" || password == "" {
      assert h.trace + [] == h.trace;
      return InvalidInput;
    }
    if !(fs.At(project).Exists() && fs.At(white).Exists()) {
      assert h.trace + [] == h.trace;
      return MissingFiles(Missing(fs.At(project), fs.At(white)));
    }
    outcome := UploadStages(h, fs, cwd, path);
  }

  method UploadStages(h: Host, fs: Disk, cwd: string, path: string) returns (outcome: Outcome)
    modifies h
    ensures h.trace == old(h.trace) + Stages(h.oracle, fs, cwd, path).ops
    ensures outcome == Stages(h.oracle, fs, cwd, path).outcome
  {
    ghost var start := h.trace;
    ghost var spec := Stages(h.oracle, fs, cwd, path);
    ghost var firstRun := UploadRun(h.oracle, ProjectPath(cwd), fs.At(ProjectPath(cwd)), ServerPath, "project");
    var first := UploadServer(h, ProjectPath(cwd), fs.At(ProjectPath(cwd)), ServerPath, "project");
    if !first {
      assert spec == Deploy(firstRun.ops, ProjectFailed);
      return ProjectFailed;
    }
    ghost var secondRun := UploadRun(h.oracle, WhitePath(path), fs.At(WhitePath(path)), TemplatesDir, "white.html");
    var second := UploadServer(h, WhitePath(path), fs.At(WhitePath(path)), TemplatesDir, "white.html");
    if !second {
      assert spec == Deploy(firstRun.ops + secondRun.ops, WhiteFailed);
      return WhiteFailed;
    }
    ghost var thirdRun := StaticStage(h.oracle, fs, path);
    var third := UploadStatic(h, fs, path);
    outcome := if third then Uploaded else StaticFailed;
    assert spec == Deploy(firstRun.ops + secondRun.ops + thirdRun.ops, outcome);
    Regroup(start, firstRun.ops, secondRun.ops, thirdRun.ops);
  }

  lemma Regroup<T>(t: seq<T>, a: seq<T>, b: seq<T>, c: seq<T>)
    ensures t + a + b + c == t + (a + b + c)
  {
  }

  /** `upload` touches the server only when every input is filled in and both
      `page_default` and `white.html` exist locally; otherwise it reports the
      empty input or exactly the missing files. */
  lemma NothingUnlessReady(o: Oracle, fs: Disk, cwd: string,
                           path: string, domain: string, server: string, password: string)
    ensures UploadPlan(o, fs, cwd, path, domain, server, password).ops != [] ==>
      && path != "" && domain != "" && server != "" && password != ""
      && fs.At(ProjectPath(cwd)).Exists() && fs.At(WhitePath(path)).Exists()
    ensures UploadPlan(o, fs, cwd, path, domain, server, password).outcome == InvalidInput
      <==> path == "" || domain == "" || server == "" || password == ""
    ensures UploadPlan(o, fs, cwd, path, domain, server, password).outcome.MissingFiles? ==>
      && UploadPlan(o, fs, cwd, path, domain, server, password).outcome.missing != []
      && UploadPlan(o, fs, cwd, path, domain, server, password).ops == []
  {
    var d := UploadPlan(o, fs, cwd, path, domain, server, password);
    if path == "" || domain == "" || server == "" || password == "" {
      assert d == Deploy([], InvalidInput);
    } else if !(fs.At(ProjectPath(cwd)).Exists() && fs.At(WhitePath(path)).Exists()) {
      assert d == Deploy([], MissingFiles(Missing(fs.At(ProjectPath(cwd)), fs.At(WhitePath(path)))));
    } else {
      assert d == Stages(o, fs, cwd, path);
    }
  }

  /** The stages are chained: `white.html` is sent only after the project
      upload succeeded, the static bundle only after `white.html` did, and a
      call reports success only when all three stages succeeded. */
  lemma StagesChained(o: Oracle, fs: Disk, cwd: string,
                      path: string, domain: string, server: string, password: string)
    requires path != "" && domain != "" && server != "" && password != ""
    requires fs.At(ProjectPath(cwd)).Exists() && fs.At(WhitePath(path)).Exists()
    ensures var d := UploadPlan(o, fs, cwd, path, domain, server, password);
      var first := UploadRun(o, ProjectPath(cwd), fs.At(ProjectPath(cwd)), ServerPath, "project");
      var second := UploadRun(o, WhitePath(path), fs.At(WhitePath(path)), TemplatesDir, "white.html");
      && (!first.ok ==> d.ops == first.ops && d.outcome == ProjectFailed)
      && (first.ok && !second.ok ==> d.ops == first.ops + second.ops && d.outcome == WhiteFailed)
      && (d.outcome == Uploaded <==> first.ok && second.ok && StaticStage(o, fs, path).ok)
  {
  }

  /** The unzip command runs only after the bundle was uploaded: no folder or
      file upload ever issues it, so it appears in the static stage exactly
      when the upload succeeded and the separate unzip session then opened. */
  lemma UnzipOnlyAfterUpload(o: Oracle, zip: string, tree: Local)
    ensures UnzipCommand in ExecCommands(ZipStage(o, zip, tree).ops)
      <==> UploadRun(o, zip, tree, ProjectDir, "static.zip").ok && o.Opens(UnzipSession)
  {
    var r := UploadRun(o, zip, tree, ProjectDir, "static.zip");
    NoUnzipInUpload(o, zip, tree);
    if r.ok && o.Opens(UnzipSession) {
      TargetsAppend(r.ops, Unzip(o));
      assert ExecCommands(Unzip(o)) == [UnzipCommand];
    } else if r.ok {
      assert Unzip(o) == [];
      assert ZipStage(o, zip, tree).ops == r.ops + [] == r.ops;
    }
  }

  /** An upload of the bundle never runs the unzip command itself. */
  lemma NoUnzipInUpload(o: Oracle, zip: string, tree: Local)
    ensures UnzipCommand !in ExecCommands(UploadRun(o, zip, tree, ProjectDir, "static.zip").ops)
  {
    var target := ProjectDir + "/" + "static.zip";
    var remove := RemoveCommand(ProjectDir, "static.zip");
    var open := o.Opens(TransferSession(zip, ProjectDir, "static.zip"));
    if open && tree.LocalFile? {
      UploadFile(o, zip, ProjectDir, "static.zip");
    } else if open {
      PrepareTargets(remove, target);
      assert remove[0] == 'r' && UnzipCommand[0] == 'c';
      if o.MkdirOk(target) && tree.LocalDir? {
        var m := MirrorAll(o, zip, tree.entries, target);
        TargetsAppend([Exec(remove), Mkdir(target)], m.ops);
        MirrorRunsNothing(o, zip, tree.entries, target);
      }
    }
  }

  /** The two operations that open a folder job. */
  lemma PrepareTargets(command: string, target: string)
    ensures ExecCommands([Exec(command), Mkdir(target)]) == [command]
    ensures MkdirTargets([Exec(command), Mkdir(target)]) == [target]
    ensures PutTargets([Exec(command), Mkdir(target)]) == []
  {
    TargetsAppend([Exec(command)], [Mkdir(target)]);
    assert [Exec(command)] + [Mkdir(target)] == [Exec(command), Mkdir(target)];
    assert [Exec(command)][1..] == [] && [Mkdir(target)][1..] == [];
  }

  /** With a bundle that is a file, the static stage makes `/root/project`,
      puts the bundle at `/root/project/static.zip`, and unpacks it exactly
      when that put succeeded and the unzip session opened; the stage succeeds
      with the put alone. */
  lemma BundleStage(o: Oracle, zip: string)
    requires o.Opens(TransferSession(zip, ProjectDir, "static.zip"))
    ensures var s := ZipStage(o, zip, LocalFile);
      var target := ProjectDir + "/" + "static.zip";
      && s.ops == [Mkdir(ProjectDir), Put(zip, target)]
                  + (if o.PutOk(zip, target) && o.Opens(UnzipSession) then [Exec(UnzipCommand)] else [])
      && s.ok == o.PutOk(zip, target)
  {
    var target := ProjectDir + "/" + "static.zip";
    UploadFileParent(ProjectDir, "static.zip");
    assert UploadRun(o, zip, LocalFile, ProjectDir, "static.zip").ops == [Mkdir(ProjectDir), Put(zip, target)];
  }

  /** The bundle is preferred: when `static.zip` exists the `static` folder is
      never looked at. */
  lemma BundlePreferred(o: Oracle, fs: Disk, fs': Disk, path: string)
    requires fs.At(ZipPath(path)) == fs'.At(ZipPath(path)) && fs.At(ZipPath(path)).Exists()
    ensures StaticStage(o, fs, path) == StaticStage(o, fs', path)
  {
  }

  /** With neither a bundle nor a folder, nothing is sent and the stage counts
      as done. */
  lemma NoStaticSkips(o: Oracle, fs: Disk, path: string)
    requires !fs.At(ZipPath(path)).Exists() && !fs.At(StaticPath(path)).Exists()
    ensures StaticStage(o, fs, path) == Run([], true)
  {
  }
}
