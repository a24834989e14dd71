/**
  The SSH/SFTP transport as the deployment code sees it. Every remote action
  the code takes is appended to a trace; what the remote side answers comes from
  an oracle fixed when the host is created. Every routine opens a session of its
  own; whether it opens is the oracle's answer for that session, and a session
  that does not open issues nothing. Connecting and closing are not recorded.
*/
module Remote {

  /** One remote action, in the order the code issues it. */
  datatype Op =
    | Exec(command: string)                 // ssh.exec_command(command)
    | Mkdir(path: string)                   // sftp.mkdir(path)
    | Put(local: string, remote: string)    // sftp.put(local, remote)

  /** What running a command yields: an exception from the SSH layer, or the
      decoded and complete stdout, stderr and exit status. */
  datatype Reply =
    | Raised(reason: string)
    | Completed(stdout: string, stderr: string, exitStatus: int)

  /** A session the code opens, named by the routine that opens it and what
      that routine was called with. */
  datatype Session =
    | RunSession(commands: seq<string>)                             // runs `commands` one by one
    | EditSession(name: string)                                     // edit_config(name, data)
    | TransferSession(local: string, remote: string, item: string)  // upload_server(local, remote, ..., item)

  /** The remote host's behaviour. The same request always gets the same answer. */
  datatype Oracle = Oracle(
    refused: map<Session, string>,    // the sessions whose ssh.connect raises, with str(e)
    replies: map<string, Reply>,      // the commands with a reply of their own
    mkdirFails: set<string>,          // where sftp.mkdir raises IOError
    putFails: set<(string, string)>)  // the transfers where sftp.put raises
  {
    /** `ssh.connect` succeeds for session `s`. */
    predicate Opens(s: Session) {
      s !in refused
    }

    /** The text of the exception a refused session raises. */
    function ConnectError(s: Session): string {
      if s in refused then refused[s] else ""
    }

    /** The reply to `command`; one the map does not list completes silently
        with exit status 0. */
    function ReplyTo(command: string): Reply {
      if command in replies then replies[command] else Completed("", "", 0)
    }

    predicate MkdirOk(path: string) {
      path !in mkdirFails
    }

    predicate PutOk(local: string, remote: string) {
      (local, remote) !in putFails
    }
  }

  /** A remote machine together with the trace of what was asked of it. */
  class Host {
    const oracle: Oracle
    var trace: seq<Op>

    constructor (oracle: Oracle)
      ensures this.oracle == oracle && trace == []
    {
      this.oracle := oracle;
      trace := [];
    }

    method ExecCommand(command: string) returns (reply: Reply)
      modifies this
      ensures trace == old(trace) + [Exec(command)]
      ensures reply == oracle.ReplyTo(command)
    {
      trace := trace + [Exec(command)];
      reply := oracle.ReplyTo(command);
    }

    method MakeDir(path: string) returns (ok: bool)
      modifies this
      ensures trace == old(trace) + [Mkdir(path)]
      ensures ok == oracle.MkdirOk(path)
    {
      trace := trace + [Mkdir(path)];
      ok := oracle.MkdirOk(path);
    }

    method PutFile(local: string, remote: string) returns (ok: bool)
      modifies this
      ensures trace == old(trace) + [Put(local, remote)]
      ensures ok == oracle.PutOk(local, remote)
    {
      trace := trace + [Put(local, remote)];
      ok := oracle.PutOk(local, remote);
    }
  }

  /** The commands of a batch that reach the host once connected: each in turn,
      up to and including the first one whose execution raises. */
  function IssueUntilRaised(o: Oracle, commands: seq<string>): (ops: seq<Op>)
    decreases |commands|
  {
    if commands == [] then []
    else if o.ReplyTo(commands[0]).Raised? then [Exec(commands[0])]
    else [Exec(commands[0])] + IssueUntilRaised(o, commands[1..])
  }

  /** What a session running `commands` one by one issues: nothing when the
      connection fails, otherwise every command in order until one raises;
      output on stderr is only printed. */
  function Batch(o: Oracle, commands: seq<string>): seq<Op> {
    if o.Opens(RunSession(commands)) then IssueUntilRaised(o, commands) else []
  }

  /** Every command of `commands` completes without raising. */
  predicate NoneRaise(o: Oracle, commands: seq<string>) {
    forall i | 0 <= i < |commands| :: o.ReplyTo(commands[i]).Completed?
  }

  /** The commands named by a sequence of `Exec` operations. */
  function Commands(commands: seq<string>): (ops: seq<Op>)
    ensures |ops| == |commands|
    ensures forall i | 0 <= i < |commands| :: ops[i] == Exec(commands[i])
  {
    if commands == [] then [] else [Exec(commands[0])] + Commands(commands[1..])
  }

  /** The commands of two lists run one after the other. */
  lemma CommandsAppend(first: seq<string>, second: seq<string>)
    ensures Commands(first + second) == Commands(first) + Commands(second)
  {
    var all := Commands(first + second);
    assert forall i | 0 <= i < |first| :: all[i] == Exec(first[i]);
    assert forall i | 0 <= i < |second| :: all[|first| + i] == Exec(second[i]);
  }

  /** A batch issues its commands one at a time, strictly in list order; when
      nothing raises it issues every one of them, whatever their output. */
  lemma {:induction false} IssueAll(o: Oracle, commands: seq<string>)
    requires NoneRaise(o, commands)
    ensures IssueUntilRaised(o, commands) == Commands(commands)
    decreases |commands|
  {
    if commands != [] {
      assert o.ReplyTo(commands[0]).Completed?;
      IssueAll(o, commands[1..]);
    }
  }

  /** A batch that raises at position `k` (and nowhere before) issues exactly the
      first `k + 1` commands: only an exception ends a batch early. */
  lemma {:induction false} IssueStopsAtRaise(o: Oracle, commands: seq<string>, k: nat)
    requires k < |commands| && o.ReplyTo(commands[k]).Raised?
    requires NoneRaise(o, commands[..k])
    ensures IssueUntilRaised(o, commands) == Commands(commands[..k + 1])
    decreases k
  {
    if k == 0 {
      assert commands[..1] == [commands[0]];
    } else {
      assert o.ReplyTo(commands[..k][0]).Completed?;
      assert commands[1..][..k - 1] == commands[..k][1..];
      IssueStopsAtRaise(o, commands[1..], k - 1);
      assert commands[..k + 1][1..] == commands[1..][..k];
    }
  }
}
