/**
  `black_upload.py`: sending the black page (`black.html`, or a folder of that
  name) to `/root` and copying it into the project's templates. Its
  `upload_server` issues the same operations as the one of `server.py`
  (`Server.UploadRun`), but a failure ends the process (`exit()`), so nothing
  after it runs. The copy opens a session of its own; when that session is
  refused the copy is skipped and success is still reported.
*/
module BlackUpload {
  import opened Remote
  import opened Mirror
  import opened Server

  /** Where the page goes, and the copy into the templates that follows. */
  const ServerPath := "/root"
  const PageName := "black.html"
  const CopyCommand := "cp -r /root/black.html /root/project/templates/"
  const CopyCommands := [CopyCommand]

  /** The separate session `run_commands` opens for the copy. */
  const CopySession := RunSession(CopyCommands)

  /** How `black_upload` ends: a refused input, a path that does not exist,
      an upload failure that ended the process, or the page in place. */
  datatype Outcome = InvalidInput | NeedsCleanup | Exited | Uploaded

  /** The operations issued and how the call ended. */
  datatype Attempt = Attempt(ops: seq<Op>, outcome: Outcome)

  /** `black_upload(path, server, server_pass)`, where `tree` is what the
      local file system holds at `path`. */
  function BlackPlan(o: Oracle, tree: Local, path: string, server: string, password: string): Attempt {
    if path == "" || server == "" || password == "" then Attempt([], InvalidInput)
    else if !tree.Exists() then Attempt([], NeedsCleanup)
    else
      var up := UploadRun(o, path, tree, ServerPath, PageName);
      if !up.ok then Attempt(up.ops, Exited)
      else Attempt(up.ops + Batch(o, CopyCommands), Uploaded)
  }

  method Upload(h: Host, tree: Local, path: string, server: string, password: string)
    returns (outcome: Outcome)
    modifies h
    ensures h.trace == old(h.trace) + BlackPlan(h.oracle, tree, path, server, password).ops
    ensures outcome == BlackPlan(h.oracle, tree, path, server, password).outcome
  {
    if path == "" || server == "" || password == "" {
      assert h.trace + [] == h.trace;
      return InvalidInput;
    }
    if !tree.Exists() {
      assert h.trace + [] == h.trace;
      return NeedsCleanup;
    }
    var ok := UploadServer(h, path, tree, ServerPath, PageName);
    if !ok {
      return Exited;
    }
    RunCommands(h, CopyCommands);
    return Uploaded;
  }

  // ---------------------------------------------------------------------------
  // Properties

  /** A missing input or a path that does not exist is reported before any
      session is opened, in that order. */
  lemma NothingUnlessReady(o: Oracle, tree: Local, path: string, server: string, password: string)
    ensures var a := BlackPlan(o, tree, path, server, password);
      && (a.outcome == InvalidInput <==> path == "" || server == "" || password == "")
      && (a.outcome == NeedsCleanup <==> path != "" && server != "" && password != "" && !tree.Exists())
      && (a.outcome.InvalidInput? || a.outcome.NeedsCleanup? ==> a.ops == [])
  {
  }

  /** A page that is a file is put to `/root/black.html`, with no directory
      made; the copy follows only when that put succeeded and the copy's own
      session opened, and the page counts as uploaded whenever the put
      succeeded. */
  lemma FilePage(o: Oracle, path: string, server: string, password: string)
    requires path != "" && server != "" && password != ""
    requires o.Opens(TransferSession(path, "/root", "black.html"))
    ensures o.PutOk(path, "/root/black.html") && o.Opens(CopySession) ==>
      BlackPlan(o, LocalFile, path, server, password)
        == Attempt([Put(path, "/root/black.html"), Exec(CopyCommand)], Uploaded)
    ensures o.PutOk(path, "/root/black.html") && !o.Opens(CopySession) ==>
      BlackPlan(o, LocalFile, path, server, password) == Attempt([Put(path, "/root/black.html")], Uploaded)
    ensures !o.PutOk(path, "/root/black.html") ==>
      BlackPlan(o, LocalFile, path, server, password) == Attempt([Put(path, "/root/black.html")], Exited)
  {
    var target := ServerPath + "/" + PageName;
    assert target == "/root/black.html";
    if o.PutOk(path, target) {
      CopyIssued(o);
      if o.Opens(CopySession) {
        assert [Put(path, target)] + [Exec(CopyCommand)] == [Put(path, target), Exec(CopyCommand)];
      } else {
        assert [Put(path, target)] + [] == [Put(path, target)];
      }
    }
  }

  /** The copy goes out once when its session opens, whatever it replies, and
      not at all otherwise. */
  lemma CopyIssued(o: Oracle)
    ensures Batch(o, CopyCommands) == if o.Opens(CopySession) then [Exec(CopyCommand)] else []
  {
    assert CopyCommands[1..] == [];
    assert IssueUntilRaised(o, CopyCommands[1..]) == [];
  }

  /** `upload_server` never runs a command. */
  lemma UploadRunsNothing(o: Oracle, local: string, tree: Local, remote: string, item: string)
    ensures ExecCommands(UploadRun(o, local, tree, remote, item).ops) == []
  {
    var target := remote + "/" + item;
    var r := UploadRun(o, local, tree, remote, item);
    var open := o.Opens(TransferSession(local, remote, item));
    if open && tree.LocalFile? {
      assert r.ops[1..] == [];
    } else if open && o.MkdirOk(target) && tree.LocalDir? {
      MirrorRunsNothing(o, local, tree.entries, target);
      TargetsAppend([Mkdir(target)], MirrorAll(o, local, tree.entries, target).ops);
      assert [Mkdir(target)][1..] == [];
    } else if open {
      assert r.ops[1..] == [];
    }
  }

  /** The copy into the templates is the only command, and it is issued
      exactly when the upload succeeded (after an `exit()` nothing runs) and
      the copy's own session opened. */
  lemma CopiesOnlyAfterUpload(o: Oracle, tree: Local, path: string, server: string, password: string)
    ensures var a := BlackPlan(o, tree, path, server, password);
      ExecCommands(a.ops) == if a.outcome == Uploaded && o.Opens(CopySession) then [CopyCommand] else []
  {
    var a := BlackPlan(o, tree, path, server, password);
    if path != "" && server != "" && password != "" && tree.Exists() {
      var up := UploadRun(o, path, tree, ServerPath, PageName);
      UploadRunsNothing(o, path, tree, ServerPath, PageName);
      if up.ok {
        CopyIssued(o);
        if o.Opens(CopySession) {
          TargetsAppend(up.ops, [Exec(CopyCommand)]);
          assert [Exec(CopyCommand)][1..] == [];
        } else {
          assert up.ops + [] == up.ops;
        }
      }
    }
  }

  /** The page counts as uploaded exactly when the inputs are given, the
      upload's session opens, the path is a file or a folder whose remote
      directory could be made, and every put succeeded; neither the copy's
      session nor its reply ever matters. */
  lemma UploadedIff(o: Oracle, tree: Local, path: string, server: string, password: string)
    ensures var a := BlackPlan(o, tree, path, server, password);
      a.outcome == Uploaded <==>
        && path != "" && server != "" && password != ""
        && o.Opens(TransferSession(path, "/root", "black.html"))
        && (tree.LocalFile? || (tree.LocalDir? && o.MkdirOk("/root/black.html")))
        && PutsSucceed(o, UploadRun(o, path, tree, ServerPath, PageName).ops)
  {
    assert ServerPath + "/" + PageName == "/root/black.html";
    UploadOk(o, path, tree, ServerPath, PageName);
  }
}
