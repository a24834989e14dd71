/**
  The recursive directory mirror that every copy of `upload_server` nests
  inside itself (`upload_folder_recursive`): the local tree drives the
  recursion, and each entry becomes SFTP operations on the remote side.
*/
module Mirror {
  import opened Remote
  import opened Text

  /** One entry of a local directory listing, as `os.path.isfile` and
      `os.path.isdir` classify it. The listing order is given. */
  datatype Entry =
    | File(name: string)
    | Dir(name: string, entries: seq<Entry>)
    | Special(name: string)   // neither a regular file nor a directory

  /** What lies at the top-level local path handed to `upload_server`. */
  datatype Local =
    | LocalFile
    | LocalDir(entries: seq<Entry>)
    | LocalSpecial
    | Absent
  {
    /** `os.path.exists`. */
    predicate Exists() { !Absent? }
  }

  /** The operations issued and whether they finished without an escaping exception. */
  datatype Run = Run(ops: seq<Op>, ok: bool)

  /** `upload_folder_recursive(local, remote)` over the listing `entries`. */
  function MirrorAll(o: Oracle, local: string, entries: seq<Entry>, remote: string): Run
    decreases entries
  {
    if entries == [] then Run([], true)
    else
      var first := MirrorOne(o, local, entries[0], remote);
      if !first.ok then first
      else
        var rest := MirrorAll(o, local, entries[1..], remote);
        Run(first.ops + rest.ops, rest.ok)
  }

  /** One entry: a file is put, a directory is created (an IOError there is
      ignored) and mirrored, anything else is skipped. */
  function MirrorOne(o: Oracle, local: string, e: Entry, remote: string): Run
    decreases e
  {
    var localItem := PathJoin(local, e.name);
    var remoteItem := remote + "/" + e.name;
    match e
    case File(_) => Run([Put(localItem, remoteItem)], o.PutOk(localItem, remoteItem))
    case Dir(_, children) =>
      var sub := MirrorAll(o, localItem, children, remoteItem);
      Run([Mkdir(remoteItem)] + sub.ops, sub.ok)
    case Special(_) => Run([], true)
  }

  /** The loop of `upload_folder_recursive`, recursing into subdirectories. */
  method MirrorFolder(h: Host, local: string, entries: seq<Entry>, remote: string) returns (ok: bool)
    modifies h
    ensures h.trace == old(h.trace) + MirrorAll(h.oracle, local, entries, remote).ops
    ensures ok == MirrorAll(h.oracle, local, entries, remote).ok
    decreases entries
  {
    ghost var spec := MirrorAll(h.oracle, local, entries, remote);
    var i := 0;
    while i < |entries|
      invariant 0 <= i <= |entries|
      invariant old(h.trace) + spec.ops == h.trace + MirrorAll(h.oracle, local, entries[i..], remote).ops
      invariant spec.ok == MirrorAll(h.oracle, local, entries[i..], remote).ok
    {
      MirrorStep(h.oracle, local, entries, i, remote, old(h.trace) + spec.ops, spec.ok, h.trace);
      var done := MirrorEntry(h, local, entries[i], remote);
      if !done {
        return false;
      }
      i := i + 1;
    }
    assert entries[i..] == [];
    ok := true;
  }

  /** One round of that loop: a file is put, a directory is created and
      mirrored, anything else is skipped. */
  method MirrorEntry(h: Host, local: string, e: Entry, remote: string) returns (ok: bool)
    modifies h
    ensures h.trace == old(h.trace) + MirrorOne(h.oracle, local, e, remote).ops
    ensures ok == MirrorOne(h.oracle, local, e, remote).ok
    decreases e
  {
    var localItem := PathJoin(local, e.name);
    var remoteItem := remote + "/" + e.name;
    match e {
      case File(_) =>
        ok := h.PutFile(localItem, remoteItem);
      case Dir(_, children) =>
        ghost var before := h.trace;
        var _ := h.MakeDir(remoteItem);
        ok := MirrorFolder(h, localItem, children, remoteItem);
        Regroup(before, [Mkdir(remoteItem)], MirrorAll(h.oracle, localItem, children, remoteItem).ops);
      case Special(_) =>
        ok := true;
    }
  }

  /** One round of the loop: when the trace so far followed by what the rest
      of the listing issues is `total`, the entry at `i` issues its operations
      and then either ends the mirror or leaves the listing after it. */
  lemma MirrorStep(o: Oracle, local: string, entries: seq<Entry>, i: nat, remote: string,
                   total: seq<Op>, ok: bool, before: seq<Op>)
    requires i < |entries|
    requires total == before + MirrorAll(o, local, entries[i..], remote).ops
    requires ok == MirrorAll(o, local, entries[i..], remote).ok
    ensures var one := MirrorOne(o, local, entries[i], remote);
      && (one.ok ==> total == before + one.ops + MirrorAll(o, local, entries[i + 1..], remote).ops
                     && ok == MirrorAll(o, local, entries[i + 1..], remote).ok)
      && (!one.ok ==> total == before + one.ops && ok == one.ok)
  {
    assert entries[i..][0] == entries[i] && entries[i..][1..] == entries[i + 1..];
    var one := MirrorOne(o, local, entries[i], remote);
    if one.ok {
      Regroup(before, one.ops, MirrorAll(o, local, entries[i + 1..], remote).ops);
    }
  }

  lemma Regroup<T>(t: seq<T>, a: seq<T>, b: seq<T>)
    ensures t + a + b == t + (a + b)
  {
  }

  // ---------------------------------------------------------------------------
  // What the mirror promises about the trace

  /** The relative paths of the regular files of a listing, depth first. */
  function FilePaths(entries: seq<Entry>): seq<string>
    decreases entries
  {
    if entries == [] then []
    else
      match entries[0]
      case File(n) => [n] + FilePaths(entries[1..])
      case Dir(n, children) => Under(n, FilePaths(children)) + FilePaths(entries[1..])
      case Special(_) => FilePaths(entries[1..])
  }

  /** The relative paths of the directories of a listing, depth first, each
      before its contents. */
  function DirPaths(entries: seq<Entry>): seq<string>
    decreases entries
  {
    if entries == [] then []
    else
      match entries[0]
      case File(_) => DirPaths(entries[1..])
      case Dir(n, children) => [n] + Under(n, DirPaths(children)) + DirPaths(entries[1..])
      case Special(_) => DirPaths(entries[1..])
  }

  /** `prefix + '/' + p` for every `p`. */
  function Under(prefix: string, paths: seq<string>): (r: seq<string>)
    ensures |r| == |paths|
    ensures forall k | 0 <= k < |paths| :: r[k] == prefix + "/" + paths[k]
  {
    seq(|paths|, k requires 0 <= k < |paths| => prefix + "/" + paths[k])
  }

  /** The remote targets of the puts in a trace, in order. */
  function PutTargets(ops: seq<Op>): seq<string> {
    if ops == [] then []
    else (if ops[0].Put? then [ops[0].remote] else []) + PutTargets(ops[1..])
  }

  /** The paths of the mkdirs in a trace, in order. */
  function MkdirTargets(ops: seq<Op>): seq<string> {
    if ops == [] then []
    else (if ops[0].Mkdir? then [ops[0].path] else []) + MkdirTargets(ops[1..])
  }

  /** The commands of the execs in a trace, in order. */
  function ExecCommands(ops: seq<Op>): seq<string> {
    if ops == [] then []
    else (if ops[0].Exec? then [ops[0].command] else []) + ExecCommands(ops[1..])
  }

  /** The three projections of a trace distribute over concatenation. */
  lemma TargetsAppend(a: seq<Op>, b: seq<Op>)
    ensures PutTargets(a + b) == PutTargets(a) + PutTargets(b)
    ensures MkdirTargets(a + b) == MkdirTargets(a) + MkdirTargets(b)
    ensures ExecCommands(a + b) == ExecCommands(a) + ExecCommands(b)
  {
    PutTargetsAppend(a, b);
    MkdirTargetsAppend(a, b);
    ExecCommandsAppend(a, b);
  }

  lemma {:induction false} PutTargetsAppend(a: seq<Op>, b: seq<Op>)
    ensures PutTargets(a + b) == PutTargets(a) + PutTargets(b)
    decreases |a|
  {
    if a == [] {
      assert a + b == b;
    } else {
      assert (a + b)[0] == a[0] && (a + b)[1..] == a[1..] + b;
      PutTargetsAppend(a[1..], b);
    }
  }

  lemma {:induction false} MkdirTargetsAppend(a: seq<Op>, b: seq<Op>)
    ensures MkdirTargets(a + b) == MkdirTargets(a) + MkdirTargets(b)
    decreases |a|
  {
    if a == [] {
      assert a + b == b;
    } else {
      assert (a + b)[0] == a[0] && (a + b)[1..] == a[1..] + b;
      MkdirTargetsAppend(a[1..], b);
    }
  }

  lemma {:induction false} ExecCommandsAppend(a: seq<Op>, b: seq<Op>)
    ensures ExecCommands(a + b) == ExecCommands(a) + ExecCommands(b)
    decreases |a|
  {
    if a == [] {
      assert a + b == b;
    } else {
      assert (a + b)[0] == a[0] && (a + b)[1..] == a[1..] + b;
      ExecCommandsAppend(a[1..], b);
    }
  }

  lemma UnderUnder(a: string, b: string, ps: seq<string>)
    ensures Under(a + "/" + b, ps) == Under(a, Under(b, ps))
  {
    forall k | 0 <= k < |ps|
      ensures Under(a + "/" + b, ps)[k] == Under(a, Under(b, ps))[k]
    {
      assert (a + "/" + b) + "/" + ps[k] == a + "/" + (b + "/" + ps[k]);
    }
  }

  lemma UnderAppend(a: string, ps: seq<string>, qs: seq<string>)
    ensures Under(a, ps + qs) == Under(a, ps) + Under(a, qs)
  {
  }

  /** A completed mirror puts every local file, and nothing else, to
      `remote + '/' + <its relative path>`, attempts one mkdir per local
      subdirectory, and runs no command. */
  lemma {:induction false} MirrorTargets(o: Oracle, local: string, entries: seq<Entry>, remote: string)
    requires MirrorAll(o, local, entries, remote).ok
    ensures PutTargets(MirrorAll(o, local, entries, remote).ops) == Under(remote, FilePaths(entries))
    ensures MkdirTargets(MirrorAll(o, local, entries, remote).ops) == Under(remote, DirPaths(entries))
    ensures ExecCommands(MirrorAll(o, local, entries, remote).ops) == []
    decreases entries
  {
    if entries != [] {
      var e := entries[0];
      var first := MirrorOne(o, local, e, remote);
      var rest := MirrorAll(o, local, entries[1..], remote);
      MirrorTargets(o, local, entries[1..], remote);
      TargetsAppend(first.ops, rest.ops);
      match e
      case File(n) =>
        assert PutTargets(first.ops) == [remote + "/" + n];
        UnderAppend(remote, [n], FilePaths(entries[1..]));
      case Dir(n, children) =>
        DirTargets(o, local, n, children, remote);
        UnderAppend(remote, Under(n, FilePaths(children)), FilePaths(entries[1..]));
        UnderAppend(remote, [n] + Under(n, DirPaths(children)), DirPaths(entries[1..]));
      case Special(_) =>
    }
  }

  /** A mirror, completed or not, never runs a command. */
  lemma {:induction false} MirrorRunsNothing(o: Oracle, local: string, entries: seq<Entry>, remote: string)
    ensures ExecCommands(MirrorAll(o, local, entries, remote).ops) == []
    decreases entries
  {
    if entries != [] {
      var first := MirrorOne(o, local, entries[0], remote);
      OneRunsNothing(o, local, entries[0], remote);
      if first.ok {
        MirrorRunsNothing(o, local, entries[1..], remote);
        TargetsAppend(first.ops, MirrorAll(o, local, entries[1..], remote).ops);
      }
    }
  }

  lemma {:induction false} OneRunsNothing(o: Oracle, local: string, e: Entry, remote: string)
    ensures ExecCommands(MirrorOne(o, local, e, remote).ops) == []
    decreases e
  {
    var item := remote + "/" + e.name;
    match e
    case File(_) =>
      assert MirrorOne(o, local, e, remote).ops[1..] == [];
    case Dir(n, children) =>
      var sub := MirrorAll(o, PathJoin(local, n), children, item);
      MirrorRunsNothing(o, PathJoin(local, n), children, item);
      TargetsAppend([Mkdir(item)], sub.ops);
    case Special(_) =>
  }

  /** A mirrored directory: its mkdir comes first, then those of its contents. */
  lemma {:induction false} DirTargets(o: Oracle, local: string, n: string, children: seq<Entry>, remote: string)
    requires MirrorOne(o, local, Dir(n, children), remote).ok
    ensures var ops := MirrorOne(o, local, Dir(n, children), remote).ops;
      && PutTargets(ops) == Under(remote, Under(n, FilePaths(children)))
      && MkdirTargets(ops) == Under(remote, [n] + Under(n, DirPaths(children)))
      && ExecCommands(ops) == []
    decreases Dir(n, children)
  {
    var item := remote + "/" + n;
    var sub := MirrorAll(o, PathJoin(local, n), children, item);
    MirrorTargets(o, PathJoin(local, n), children, item);
    TargetsAppend([Mkdir(item)], sub.ops);
    UnderUnder(remote, n, FilePaths(children));
    UnderUnder(remote, n, DirPaths(children));
    UnderAppend(remote, [n], Under(n, DirPaths(children)));
  }

  /** The transfers of the puts in a trace, in order: local source, remote target. */
  function Transfers(ops: seq<Op>): seq<(string, string)> {
    if ops == [] then []
    else (if ops[0].Put? then [(ops[0].local, ops[0].remote)] else []) + Transfers(ops[1..])
  }

  lemma {:induction false} TransfersAppend(a: seq<Op>, b: seq<Op>)
    ensures Transfers(a + b) == Transfers(a) + Transfers(b)
    decreases |a|
  {
    if a == [] {
      assert a + b == b;
    } else {
      assert (a + b)[0] == a[0] && (a + b)[1..] == a[1..] + b;
      TransfersAppend(a[1..], b);
    }
  }

  /** Which local file goes where: each regular file of the listing, its local
      path built by `os.path.join` from the folder down, is sent to the remote
      folder plus `/` plus the same names, depth first. */
  function FileTransfers(local: string, entries: seq<Entry>, remote: string): seq<(string, string)>
    decreases entries
  {
    if entries == [] then []
    else
      var rest := FileTransfers(local, entries[1..], remote);
      match entries[0]
      case File(n) => [(PathJoin(local, n), remote + "/" + n)] + rest
      case Dir(n, children) => FileTransfers(PathJoin(local, n), children, remote + "/" + n) + rest
      case Special(_) => rest
  }

  /** A completed mirror sends exactly the files of the listing, each from its
      local path to its remote path, in listing order. */
  lemma {:induction false} MirrorTransfers(o: Oracle, local: string, entries: seq<Entry>, remote: string)
    requires MirrorAll(o, local, entries, remote).ok
    ensures Transfers(MirrorAll(o, local, entries, remote).ops) == FileTransfers(local, entries, remote)
    decreases entries
  {
    if entries != [] {
      var first := MirrorOne(o, local, entries[0], remote);
      var rest := MirrorAll(o, local, entries[1..], remote);
      MirrorTransfers(o, local, entries[1..], remote);
      TransfersAppend(first.ops, rest.ops);
      match entries[0]
      case File(n) =>
        assert first.ops[1..] == [];
      case Dir(n, children) =>
        var item := remote + "/" + n;
        var sub := MirrorAll(o, PathJoin(local, n), children, item);
        MirrorTransfers(o, PathJoin(local, n), children, item);
        TransfersAppend([Mkdir(item)], sub.ops);
        assert [Mkdir(item)][1..] == [];
      case Special(_) =>
    }
  }

  /** The put that an operation stands for succeeds. */
  predicate PutSucceeds(o: Oracle, op: Op) {
    op.Put? ==> o.PutOk(op.local, op.remote)
  }

  /** Every put among `ops` succeeds. */
  predicate PutsSucceed(o: Oracle, ops: seq<Op>) {
    forall k | 0 <= k < |ops| :: PutSucceeds(o, ops[k])
  }

  lemma PutsSucceedAppend(o: Oracle, a: seq<Op>, b: seq<Op>)
    ensures PutsSucceed(o, a + b) <==> PutsSucceed(o, a) && PutsSucceed(o, b)
  {
    if PutsSucceed(o, a) && PutsSucceed(o, b) {
      forall k | 0 <= k < |a + b|
        ensures PutSucceeds(o, (a + b)[k])
      {
        if k >= |a| {
          assert (a + b)[k] == b[k - |a|];
        }
      }
    }
    if PutsSucceed(o, a + b) {
      forall k | 0 <= k < |a|
        ensures PutSucceeds(o, a[k])
      {
        assert (a + b)[k] == a[k];
      }
      forall k | 0 <= k < |b|
        ensures PutSucceeds(o, b[k])
      {
        assert (a + b)[|a| + k] == b[k];
      }
    }
  }

  /** A mirror fails exactly when one of its puts fails, and then that put is the
      last operation issued: a failed put ends the whole upload. */
  lemma {:induction false} MirrorFailsOnlyAtPut(o: Oracle, local: string, entries: seq<Entry>, remote: string)
    ensures var r := MirrorAll(o, local, entries, remote);
      && (r.ok <==> PutsSucceed(o, r.ops))
      && (!r.ok ==> r.ops != [] && r.ops[|r.ops| - 1].Put? && !PutSucceeds(o, r.ops[|r.ops| - 1]))
    decreases entries
  {
    if entries != [] {
      var first := MirrorOne(o, local, entries[0], remote);
      OneFailsOnlyAtPut(o, local, entries[0], remote);
      if first.ok {
        var rest := MirrorAll(o, local, entries[1..], remote);
        MirrorFailsOnlyAtPut(o, local, entries[1..], remote);
        FailsBehind(o, first.ops, rest.ops, rest.ok);
      }
    }
  }

  /** The same for one entry. */
  lemma {:induction false} OneFailsOnlyAtPut(o: Oracle, local: string, e: Entry, remote: string)
    ensures var r := MirrorOne(o, local, e, remote);
      && (r.ok <==> PutsSucceed(o, r.ops))
      && (!r.ok ==> r.ops != [] && r.ops[|r.ops| - 1].Put? && !PutSucceeds(o, r.ops[|r.ops| - 1]))
    decreases e
  {
    match e {
      case File(n) =>
        assert MirrorOne(o, local, e, remote).ops[0] == Put(PathJoin(local, n), remote + "/" + n);
      case Dir(n, children) =>
        var sub := MirrorAll(o, PathJoin(local, n), children, remote + "/" + n);
        MirrorFailsOnlyAtPut(o, PathJoin(local, n), children, remote + "/" + n);
        assert PutsSucceed(o, [Mkdir(remote + "/" + n)]);
        FailsBehind(o, [Mkdir(remote + "/" + n)], sub.ops, sub.ok);
        assert MirrorOne(o, local, e, remote) == Run([Mkdir(remote + "/" + n)] + sub.ops, sub.ok);
      case Special(_) =>
    }
  }

  /** Operations whose puts all succeeded, in front of a trace, change neither
      its verdict nor its last operation. */
  lemma FailsBehind(o: Oracle, pre: seq<Op>, ops: seq<Op>, ok: bool)
    requires PutsSucceed(o, pre)
    requires ok <==> PutsSucceed(o, ops)
    requires !ok ==> ops != [] && ops[|ops| - 1].Put? && !PutSucceeds(o, ops[|ops| - 1])
    ensures ok <==> PutsSucceed(o, pre + ops)
    ensures !ok ==> (pre + ops)[|pre + ops| - 1] == ops[|ops| - 1]
  {
    PutsSucceedAppend(o, pre, ops);
  }


  /** Whether the remote directories already exist makes no difference: the
      mirror issues the same operations and reaches the same verdict. */
  lemma {:induction false} MirrorIgnoresMkdir(o: Oracle, fails: set<string>, local: string, entries: seq<Entry>, remote: string)
    ensures MirrorAll(o.(mkdirFails := fails), local, entries, remote) == MirrorAll(o, local, entries, remote)
    decreases entries
  {
    if entries != [] {
      match entries[0] {
        case File(_) =>
        case Dir(n, children) =>
          MirrorIgnoresMkdir(o, fails, PathJoin(local, n), children, remote + "/" + n);
        case Special(_) =>
      }
      MirrorIgnoresMkdir(o, fails, local, entries[1..], remote);
    }
  }

  /** The listing {a.txt, sub/b.txt}. */
  function SampleListing(): seq<Entry> {
    [File("a.txt"), Dir("sub", [File("b.txt")])]
  }

  lemma SamplePaths()
    ensures Under("dest", FilePaths(SampleListing())) == ["dest/a.txt", "dest/sub/b.txt"]
    ensures Under("dest", DirPaths(SampleListing())) == ["dest/sub"]
  {
    var top := SampleListing();
    var sub := [File("b.txt")];
    assert top[1..][1..] == [] && sub[1..] == [];
    assert FilePaths(sub) == ["b.txt"];
    assert FilePaths(top[1..]) == ["sub" + "/" + "b.txt"];
    assert FilePaths(top) == ["a.txt", "sub" + "/" + "b.txt"];
    assert DirPaths(top) == ["sub"];
    assert "dest" + "/" + "a.txt" == "dest/a.txt";
    assert "dest" + "/" + "sub" == "dest/sub";
    assert "dest" + "/" + ("sub" + "/" + "b.txt") == "dest/sub/b.txt";
  }

  /** Mirroring the tree {a.txt, sub/b.txt} into `dest` puts exactly
      dest/a.txt and dest/sub/b.txt and attempts exactly one mkdir, on
      dest/sub, whether or not that directory already exists. */
  lemma SampleTree(o: Oracle, local: string)
    requires forall l, r :: o.PutOk(l, r)
    ensures var r := MirrorAll(o, local, SampleListing(), "dest");
      && r.ok
      && PutTargets(r.ops) == ["dest/a.txt", "dest/sub/b.txt"]
      && MkdirTargets(r.ops) == ["dest/sub"]
      && ExecCommands(r.ops) == []
  {
    MirrorFailsOnlyAtPut(o, local, SampleListing(), "dest");
    MirrorTargets(o, local, SampleListing(), "dest");
    SamplePaths();
  }
}
