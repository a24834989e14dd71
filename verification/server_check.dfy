/**
  The pre-flight check of `server_check.py`: nine read-only commands are run
  over one SSH session, their outputs are classified into issues and warnings,
  and the outcome is summarised as `(ok, message)`. Issues make `ok` false;
  warnings alone still let the deployment go on.
*/
module ServerCheck {
  import opened Wrappers
  import opened Text
  import opened Remote

  // ---------------------------------------------------------------------------
  // run_check_commands

  /** What `run_check_commands` records for one command. The streams are kept
      as decoded; the `output` and `error` entries are their stripped forms. */
  datatype CheckResult = CheckResult(stdout: string, stderr: string, success: bool, exitStatus: int)
  {
    /** The `output` entry. */
    function Output(): string {
      Strip(stdout)
    }

    /** The `error` entry. */
    function Error(): string {
      Strip(stderr)
    }
  }

  /** Its return value: the result map, or the `{'error': str(e)}` map after an exception. */
  datatype Results = Failed(error: string) | Results(entries: map<string, CheckResult>)

  /** The record of one completed command: success exactly when the exit
      status is zero. */
  function Record(reply: Reply): (r: CheckResult)
    requires reply.Completed?
    ensures r.success <==> r.exitStatus == 0
    ensures r.exitStatus == reply.exitStatus
    ensures r.stdout == reply.stdout && r.stderr == reply.stderr
  {
    CheckResult(reply.stdout, reply.stderr, reply.exitStatus == 0, reply.exitStatus)
  }

  /** The loop of `run_check_commands` from some command on, with the map built
      so far; an exception ends it with nothing but the error. */
  function Collect(o: Oracle, commands: seq<string>, m: map<string, CheckResult>): Results
    decreases |commands|
  {
    if commands == [] then Results(m)
    else
      var reply := o.ReplyTo(commands[0]);
      if reply.Raised? then Failed(reply.reason)
      else Collect(o, commands[1..], m[commands[0] := Record(reply)])
  }

  /** `run_check_commands(host, user, password, commands)`. */
  function CheckResults(o: Oracle, commands: seq<string>): Results {
    var session := RunSession(commands);
    if !o.Opens(session) then Failed(o.ConnectError(session)) else Collect(o, commands, map[])
  }

  method RunCheckCommands(h: Host, commands: seq<string>) returns (r: Results)
    modifies h
    ensures h.trace == old(h.trace) + Batch(h.oracle, commands)
    ensures r == CheckResults(h.oracle, commands)
  {
    if !h.oracle.Opens(RunSession(commands)) {
      assert h.trace + [] == h.trace;
      return Failed(h.oracle.ConnectError(RunSession(commands)));
    }
    assert Batch(h.oracle, commands) == IssueUntilRaised(h.oracle, commands);
    var m: map<string, CheckResult> := map[];
    var i := 0;
    while i < |commands|
      invariant 0 <= i <= |commands|
      invariant old(h.trace) + IssueUntilRaised(h.oracle, commands)
             == h.trace + IssueUntilRaised(h.oracle, commands[i..])
      invariant Collect(h.oracle, commands, map[]) == Collect(h.oracle, commands[i..], m)
    {
      assert commands[i..][0] == commands[i] && commands[i..][1..] == commands[i + 1..];
      var reply := h.ExecCommand(commands[i]);
      if reply.Raised? {
        return Failed(reply.reason);
      }
      m := m[commands[i] := Record(reply)];
      i := i + 1;
    }
    assert commands[i..] == [];
    r := Results(m);
  }

  /** When no command raises, the map gains exactly one entry per command
      string, holding the record of that command's reply; the rest of the map
      is kept. */
  lemma {:induction false} CollectRecordsAll(o: Oracle, commands: seq<string>, m: map<string, CheckResult>)
    requires NoneRaise(o, commands)
    ensures var r := Collect(o, commands, m);
      && r.Results?
      && r.entries.Keys == m.Keys + (set c | c in commands)
      && (forall c | c in commands :: r.entries[c] == Record(o.ReplyTo(c)))
      && (forall k | k in m && k !in commands :: r.entries[k] == m[k])
    decreases |commands|
  {
    if commands != [] {
      var c := commands[0];
      NoneRaiseFirst(o, commands);
      var m' := m[c := Record(o.ReplyTo(c))];
      CollectRecordsAll(o, commands[1..], m');
      CommandSet(commands);
      var r := Collect(o, commands, m);
      assert r == Collect(o, commands[1..], m');
      forall x | x in commands
        ensures r.entries[x] == Record(o.ReplyTo(x))
      {
        if x !in commands[1..] {
          assert x == c;
        }
      }
    }
  }

  /** The commands of a batch are its first and those of the rest. */
  lemma CommandSet(commands: seq<string>)
    requires commands != []
    ensures (set x | x in commands) == {commands[0]} + (set x | x in commands[1..])
  {
    assert forall x | x in commands :: x == commands[0] || x in commands[1..];
  }

  /** The first command that raises ends the loop, and only its error survives. */
  lemma {:induction false} CollectStopsAtRaise(o: Oracle, commands: seq<string>, m: map<string, CheckResult>, k: nat)
    requires k < |commands| && o.ReplyTo(commands[k]).Raised?
    requires NoneRaise(o, commands[..k])
    ensures Collect(o, commands, m) == Failed(o.ReplyTo(commands[k]).reason)
    decreases k
  {
    if k > 0 {
      assert commands[..k][0] == commands[0];
      assert commands[1..][..k - 1] == commands[..k][1..];
      assert NoneRaise(o, commands[..k][1..]) by {
        var pre := commands[..k];
        forall i | 0 <= i < |pre| - 1 ensures o.ReplyTo(pre[1..][i]).Completed? {
          assert pre[1..][i] == pre[i + 1];
        }
      }
      CollectStopsAtRaise(o, commands[1..], m[commands[0] := Record(o.ReplyTo(commands[0]))], k - 1);
    }
  }

  /** `run_check_commands` returns the error entry exactly when the connection
      fails or some command raises; otherwise one record per command string,
      and nothing else. */
  lemma CheckResultsShape(o: Oracle, commands: seq<string>)
    ensures CheckResults(o, commands).Failed? <==> !o.Opens(RunSession(commands)) || !NoneRaise(o, commands)
    ensures CheckResults(o, commands).Results? ==>
      && CheckResults(o, commands).entries.Keys == (set c | c in commands)
      && forall c | c in commands :: CheckResults(o, commands).entries[c] == Record(o.ReplyTo(c))
  {
    if o.Opens(RunSession(commands)) {
      if NoneRaise(o, commands) {
        CollectRecordsAll(o, commands, map[]);
      } else {
        var k := FirstRaise(o, commands);
        CollectStopsAtRaise(o, commands, map[], k);
      }
    }
  }

  /** The position of the first command that raises. */
  function FirstRaise(o: Oracle, commands: seq<string>): (k: nat)
    requires !NoneRaise(o, commands)
    ensures k < |commands| && o.ReplyTo(commands[k]).Raised? && NoneRaise(o, commands[..k])
    decreases |commands|
  {
    if o.ReplyTo(commands[0]).Raised? then 0
    else
      assert !NoneRaise(o, commands[1..]) by {
        NoneRaiseFirst(o, commands);
      }
      var k := FirstRaise(o, commands[1..]);
      assert commands[..k + 1] == [commands[0]] + commands[1..][..k];
      1 + k
  }

  /** No command of a batch raises exactly when its first does not and none of
      the rest does. */
  lemma NoneRaiseFirst(o: Oracle, commands: seq<string>)
    requires commands != []
    ensures NoneRaise(o, commands) <==> o.ReplyTo(commands[0]).Completed? && NoneRaise(o, commands[1..])
  {
    if o.ReplyTo(commands[0]).Completed? && NoneRaise(o, commands[1..]) {
      forall i | 1 <= i < |commands|
        ensures o.ReplyTo(commands[i]).Completed?
      {
        assert commands[i] == commands[1..][i - 1];
      }
    }
  }

  /** `results.get(cmd, {})`, read field by field with the defaults the check
      uses: empty output and error, no success. */
  function Lookup(m: map<string, CheckResult>, command: string): CheckResult {
    if command in m then m[command] else CheckResult("", "", false, 0)
  }

  // ---------------------------------------------------------------------------
  // The commands

  const PythonCommand := "python3 --version"
  const PipCommand := "python3 -m pip --version"
  const PortCommand := "sudo netstat -tlnp | grep :5000 || echo \"" + PortFree + "\""
  const FlaskCommand := "sudo systemctl list-units --type=service | grep flask || echo \"" + NoFlask + "\""
  const NginxCommand := "sudo nginx -t 2>/dev/null || echo \"" + NoNginx + "\""
  const DiskCommand := "df -h /root/ | tail -1"
  const MemoryCommand := "free -h | grep Mem"
  const ProjectCommand := "ls -la /root/project/ 2>/dev/null || echo \"프로젝트 디렉토리 없음\""
  const UfwCommand := "sudo ufw status || echo \"" + NoUfw + "\""

  /** The sentinels the fallbacks print when there is nothing to report. */
  const PortFree := "포트 5000 사용 중인 프로세스 없음"
  const NoFlask := "기존 flask 서비스 없음"
  const NoNginx := "nginx 설정 파일 없음"
  const NoUfw := "UFW 설정 없음"

  /** `check_commands`, in order. */
  const CheckCommands: seq<string> := [
    PythonCommand, PipCommand, PortCommand, FlaskCommand, NginxCommand,
    DiskCommand, MemoryCommand, ProjectCommand, UfwCommand
  ]

  // ---------------------------------------------------------------------------
  // Reading numbers out of the outputs

  predicate IsDigit(c: char) {
    '0' <= c <= '9'
  }

  /** The length of the run of digits `s` starts with. */
  function DigitRun(s: string): (k: nat)
    ensures k <= |s|
    ensures forall i | 0 <= i < k :: IsDigit(s[i])
    ensures k < |s| ==> !IsDigit(s[k])
    decreases |s|
  {
    if s != [] && IsDigit(s[0]) then 1 + DigitRun(s[1..]) else 0
  }

  /** `int(digits)`. */
  function Number(digits: string): nat
    decreases |digits|
  {
    if digits == [] then 0
    else Number(digits[..|digits| - 1]) * 10 + (digits[|digits| - 1] as int - '0' as int) % 10
  }

  /** The decimal numeral of `n`, without leading zeros. */
  function Decimal(n: nat): (s: string)
    ensures s != [] && forall i | 0 <= i < |s| :: IsDigit(s[i])
  {
    if n < 10 then [('0' as int + n) as char]
    else Decimal(n / 10) + [('0' as int + n % 10) as char]
  }

  /** Reading a numeral back gives the number it was written from. */
  lemma {:induction false} NumberDecimal(n: nat)
    ensures Number(Decimal(n)) == n
  {
    if n >= 10 {
      var s := Decimal(n);
      assert s[..|s| - 1] == Decimal(n / 10);
      NumberDecimal(n / 10);
    }
  }

  /** A numeral followed by a non-digit is read whole. */
  lemma {:induction false} DigitRunDecimal(n: nat, rest: string)
    requires rest == [] || !IsDigit(rest[0])
    ensures DigitRun(Decimal(n) + rest) == |Decimal(n)|
  {
    DigitRunOf(Decimal(n), rest);
  }

  lemma {:induction false} DigitRunOf(digits: string, rest: string)
    requires forall i | 0 <= i < |digits| :: IsDigit(digits[i])
    requires rest == [] || !IsDigit(rest[0])
    ensures DigitRun(digits + rest) == |digits|
    decreases |digits|
  {
    if digits == [] {
      assert digits + rest == rest;
    } else {
      assert (digits + rest)[1..] == digits[1..] + rest;
      DigitRunOf(digits[1..], rest);
    }
  }

  /** `re.match(r'Python (\d+)\.(\d+)', s)`: both groups as numbers. */
  function VersionAt(s: string): Option<(nat, nat)> {
    if StartsWith(s, "Python ") then Numbers(s[7..]) else None
  }

  /** `re.match(r'(\d+)\.(\d+)', t)`. */
  function Numbers(t: string): Option<(nat, nat)> {
    var k := DigitRun(t);
    if k == 0 || k == |t| || t[k] != '.' then None
    else
      var u := t[k + 1..];
      var j := DigitRun(u);
      if j == 0 then None else Some((Number(t[..k]), Number(u[..j])))
  }

  /** `re.search(r'Python (\d+)\.(\d+)', s)`: the leftmost match. */
  function VersionMatch(s: string): Option<(nat, nat)>
    decreases |s|
  {
    if s == [] then None
    else if VersionAt(s).Some? then VersionAt(s)
    else VersionMatch(s[1..])
  }

  /** `re.match(r'(\d+)%', s)`. */
  function PercentAt(s: string): Option<nat> {
    var k := DigitRun(s);
    if k == 0 || k == |s| || s[k] != '%' then None else Some(Number(s[..k]))
  }

  /** `re.search(r'(\d+)%', s)`: the leftmost match. */
  function PercentMatch(s: string): Option<nat>
    decreases |s|
  {
    if s == [] then None
    else if PercentAt(s).Some? then PercentAt(s)
    else PercentMatch(s[1..])
  }

  /** The version `python3 --version` prints is read back as written. */
  lemma VersionOfText(major: nat, minor: nat, rest: string)
    requires rest == [] || !IsDigit(rest[0])
    ensures VersionMatch("Python " + (Decimal(major) + ("." + (Decimal(minor) + rest)))) == Some((major, minor))
  {
    var t := Decimal(major) + ("." + (Decimal(minor) + rest));
    var s := "Python " + t;
    assert s[..7] == "Python " && s[7..] == t;
    NumbersOf(Decimal(major), Decimal(minor), rest);
    NumberDecimal(major);
    NumberDecimal(minor);
  }

  /** Two runs of digits around a dot are read as the two numbers. */
  lemma NumbersOf(a: string, b: string, rest: string)
    requires a != [] && forall i | 0 <= i < |a| :: IsDigit(a[i])
    requires b != [] && forall i | 0 <= i < |b| :: IsDigit(b[i])
    requires rest == [] || !IsDigit(rest[0])
    ensures Numbers(a + ("." + (b + rest))) == Some((Number(a), Number(b)))
  {
    var u := "." + (b + rest);
    assert u[0] == '.' && u[1..] == b + rest;
    NumbersAfter(a, u);
    DigitRunOf(b, rest);
    assert (b + rest)[..|b|] == b;
  }

  /** A run of digits followed by a dot: the first number is that run. */
  lemma NumbersAfter(a: string, u: string)
    requires a != [] && forall i | 0 <= i < |a| :: IsDigit(a[i])
    requires u != [] && u[0] == '.'
    ensures var v := u[1..];
      Numbers(a + u) == if DigitRun(v) == 0 then None else Some((Number(a), Number(v[..DigitRun(v)])))
  {
    DigitRunOf(a, u);
    assert (a + u)[..|a|] == a;
    assert (a + u)[|a| + 1..] == u[1..];
  }

  /** Text without a `P` never starts a version, so the search skips it. */
  lemma {:induction false} VersionMatchSkips(a: string, s: string)
    requires forall i | 0 <= i < |a| :: a[i] != 'P'
    ensures VersionMatch(a + s) == VersionMatch(s)
    decreases |a|
  {
    if a != [] {
      assert (a + s)[0] == a[0];
      assert (a + s)[1..] == a[1..] + s;
      VersionMatchSkips(a[1..], s);
    } else {
      assert a + s == s;
    }
  }

  /** A percentage is read back as written. */
  lemma PercentOfText(n: nat, rest: string)
    ensures PercentMatch(Decimal(n) + "%" + rest) == Some(n)
  {
    var s := Decimal(n) + "%" + rest;
    assert s == Decimal(n) + ("%" + rest);
    DigitRunDecimal(n, "%" + rest);
    assert s[..|Decimal(n)|] == Decimal(n);
    NumberDecimal(n);
  }

  /** Text before the usage column: no `%` in it, and it does not end in a
      digit (so no run of its digits reaches a percent sign). */
  predicate BeforePercent(a: string) {
    && (forall i | 0 <= i < |a| :: a[i] != '%')
    && (a == [] || !IsDigit(a[|a| - 1]))
  }

  /** No percentage starts inside such text, whatever follows it. */
  lemma NoPercentAt(a: string, s: string)
    requires a != [] && BeforePercent(a)
    ensures PercentAt(a + s).None?
  {
    var k := DigitRun(a + s);
    assert !IsDigit((a + s)[|a| - 1]);
    if 0 < k < |a| {
      assert (a + s)[k] == a[k];
    }
  }

  /** Text without a `%` that does not end in a digit never holds the start
      of a percentage, so the search skips it. */
  lemma {:induction false} PercentMatchSkips(a: string, s: string)
    requires BeforePercent(a)
    ensures PercentMatch(a + s) == PercentMatch(s)
    decreases |a|
  {
    if a != [] {
      NoPercentAt(a, s);
      assert (a + s)[1..] == a[1..] + s;
      assert a[1..] == [] || a[1..][|a[1..]| - 1] == a[|a| - 1];
      PercentMatchSkips(a[1..], s);
    } else {
      assert a + s == s;
    }
  }

  // ---------------------------------------------------------------------------
  // The checks

  /** What one check adds: nothing, an issue or a warning. */
  datatype Finding = Fine | Issue(text: string) | Warning(text: string)

  /** Python is older than 3.6. */
  predicate TooOld(version: (nat, nat)) {
    version.0 < 3 || (version.0 == 3 && version.1 < 6)
  }

  /** The Python check: an issue when the command failed or printed nothing,
      when its output does not name Python, or when the version it names is
      below 3.6; never a warning. */
  function PythonCheck(r: CheckResult): (f: Finding)
    ensures !f.Warning?
  {
    var output := r.Output();
    if r.success && output != "" then
      if Contains(output, "Python 3") || Contains(output, "Python") then
        match VersionMatch(output)
        case Some(v) => if TooOld(v) then Issue("Python 버전이 너무 낮습니다: " + output) else Fine
        case None => Fine
      else Issue("Python 버전을 확인할 수 없습니다: " + output)
    else if r.Error() != "" then Issue("Python 실행 오류: " + r.Error())
    else Issue("Python3가 설치되어 있지 않거나 실행할 수 없습니다")
  }

  /** A check of output that only warns: when the output is not blank and lacks
      the sentinel its fallback prints. */
  function SentinelCheck(output: string, sentinel: string, lead: string): (f: Finding)
    ensures !f.Issue?
  {
    if !Contains(output, sentinel) && Strip(output) != "" then Warning(lead + output) else Fine
  }

  function PortCheck(output: string): Finding {
    SentinelCheck(output, PortFree, "포트 5000이 이미 사용 중입니다: ")
  }

  function FlaskCheck(output: string): Finding {
    SentinelCheck(output, NoFlask, "기존 Flask 서비스가 있습니다: ")
  }

  /** The disk check on the first percentage of the `df` line: above 90 is an
      issue, above 80 a warning. */
  function DiskCheck(output: string): Finding {
    if output == "" then Fine
    else
      match PercentMatch(output)
      case None => Fine
      case Some(usage) =>
        if usage > 90 then Issue("디스크 공간이 부족합니다: " + output)
        else if usage > 80 then Warning("디스크 공간이 부족할 수 있습니다: " + output)
        else Fine
  }

  /** The nginx check: a warning unless the output is blank, is the sentinel,
      or reports a correct syntax in any letter case; never an issue. */
  function NginxCheck(output: string): (f: Finding)
    ensures !f.Issue?
  {
    if !Contains(output, NoNginx) && Strip(output) != "" then
      if Contains(Lower(output), "syntax is ok") then Fine
      else Warning("nginx 설정에 문제가 있을 수 있습니다: " + output)
    else Fine
  }

  /** When a command's `echo` fallback fired, its check passes: the message is
      found wherever it appears in the output. */
  lemma FallbacksPass(pre: string, post: string)
    ensures PortCheck(pre + PortFree + post) == Fine
    ensures FlaskCheck(pre + NoFlask + post) == Fine
    ensures NginxCheck(pre + NoNginx + post) == Fine
  {
    ContainsSpliced(pre, PortFree, post);
    ContainsSpliced(pre, NoFlask, post);
    ContainsSpliced(pre, NoNginx, post);
  }

  /** Blank output never warns. */
  lemma BlankPasses(output: string)
    requires Blank(output)
    ensures PortCheck(output) == Fine && FlaskCheck(output) == Fine && NginxCheck(output) == Fine
  {
    StripEmptyIffBlank(output);
  }

  /** A Python that reports its version is an issue exactly when the version
      is older than 3.6. */
  lemma PythonVersionVerdict(r: CheckResult, major: nat, minor: nat, rest: string)
    requires rest == [] || !IsDigit(rest[0])
    requires r.success && r.Output() == "Python " + (Decimal(major) + ("." + (Decimal(minor) + rest)))
    ensures PythonCheck(r).Issue? <==> TooOld((major, minor))
  {
    var output := r.Output();
    assert output[..|"Python"|] == "Python";
    assert Contains(output, "Python");
    VersionOfText(major, minor, rest);
  }

  /** A `df` line whose first percentage is the usage column (the device and
      the sizes before it hold no `%`, and a blank separates them from it):
      above 90 is an issue, 81 to 90 a warning, anything lower passes. */
  lemma DiskVerdict(a: string, usage: nat, rest: string)
    requires BeforePercent(a)
    ensures DiskCheck(a + (Decimal(usage) + "%" + rest)).Issue? <==> usage > 90
    ensures DiskCheck(a + (Decimal(usage) + "%" + rest)).Warning? <==> 80 < usage <= 90
  {
    PercentMatchSkips(a, Decimal(usage) + "%" + rest);
    PercentOfText(usage, rest);
  }

  /** A root file system that is 95% full, as `df -h` prints it, is an issue. */
  lemma FullDiskLine()
    ensures DiskCheck("/dev/sda1 20G 19G 1G 95% /").Issue?
  {
    var a := "/dev/sda1 20G 19G 1G ";
    assert Decimal(95) == "95";
    assert a + (Decimal(95) + "%" + " /") == "/dev/sda1 20G 19G 1G 95% /";
    DiskVerdict(a, 95, " /");
  }

  /** The text a finding adds to the issue list: its own text when it is an issue. */
  function IssueOf(f: Finding): seq<string> {
    if f.Issue? then [f.text] else []
  }

  /** The text a finding adds to the warning list. */
  function WarningOf(f: Finding): seq<string> {
    if f.Warning? then [f.text] else []
  }

  /** The issue list of `check_server_status`: the Python check, then the disk check. */
  function Issues(m: map<string, CheckResult>): seq<string> {
    IssueOf(PythonCheck(Lookup(m, PythonCommand))) + IssueOf(DiskCheck(Lookup(m, DiskCommand).Output()))
  }

  /** The warning list: the port, Flask, disk and nginx checks, in that order. */
  function Warnings(m: map<string, CheckResult>): seq<string> {
    WarningOf(PortCheck(Lookup(m, PortCommand).Output()))
    + WarningOf(FlaskCheck(Lookup(m, FlaskCommand).Output()))
    + WarningOf(DiskCheck(Lookup(m, DiskCommand).Output()))
    + WarningOf(NginxCheck(Lookup(m, NginxCommand).Output()))
  }

  // ---------------------------------------------------------------------------
  // The summary

  function Bullets(items: seq<string>): (r: seq<string>)
    ensures |r| == |items|
    ensures forall i | 0 <= i < |items| :: r[i] == "• " + items[i]
  {
    seq(|items|, i requires 0 <= i < |items| => "• " + items[i])
  }

  const AskToContinue := "\n\n계속 진행하시겠습니까?"

  /** The result of `check_server_status` once the findings are known. */
  function Summary(issues: seq<string>, warnings: seq<string>, python: string, disk: string, memory: string)
    : (r: (bool, string))
    ensures r.0 <==> issues == []
  {
    if issues != [] then
      (false,
       "❌ 심각한 문제 발견:\n" + JoinWith(Bullets(issues), '\n')
       + (if warnings != [] then "\n\n⚠️ 경고사항:\n" + JoinWith(Bullets(warnings), '\n') else ""))
    else if warnings != [] then
      (true, "⚠️ 경고사항이 있습니다:\n" + JoinWith(Bullets(warnings), '\n') + AskToContinue)
    else
      (true,
       "✅ 모든 점검 항목이 정상입니다!\n\n점검 결과:\n"
       + "• Python: " + python + "\n"
       + "• 포트 5000: 사용 가능\n"
       + "• 디스크: " + disk + "\n"
       + "• 메모리: " + memory + "\n"
       + "• 기존 서비스: 충돌 없음")
  }

  /** `check_server_status(ip, password)` given what `run_check_commands` returned. */
  function Status(results: Results): (bool, string) {
    match results
    case Failed(e) => (false, "SSH 연결 오류: " + e)
    case Results(m) =>
      Summary(Issues(m), Warnings(m),
              Lookup(m, PythonCommand).Output(), Lookup(m, DiskCommand).Output(), Lookup(m, MemoryCommand).Output())
  }

  /** Every issue and every warning appears in the message as a bullet. */
  lemma SummaryMentions(issues: seq<string>, warnings: seq<string>, python: string, disk: string, memory: string)
    ensures forall i | 0 <= i < |issues| ::
      Contains(Summary(issues, warnings, python, disk, memory).1, "• " + issues[i])
    ensures forall i | 0 <= i < |warnings| ::
      Contains(Summary(issues, warnings, python, disk, memory).1, "• " + warnings[i])
  {
    var message := Summary(issues, warnings, python, disk, memory).1;
    var bi, bw := Bullets(issues), Bullets(warnings);
    if issues != [] {
      var head := "❌ 심각한 문제 발견:\n";
      var tail := if warnings != [] then "\n\n⚠️ 경고사항:\n" + JoinWith(bw, '\n') else "";
      assert message == head + JoinWith(bi, '\n') + tail;
      forall i | 0 <= i < |issues| ensures Contains(message, "• " + issues[i]) {
        JoinWithContains(bi, '\n', i);
        ContainsPrefixed(head, JoinWith(bi, '\n'), bi[i]);
        ContainsExtend(head + JoinWith(bi, '\n'), tail, bi[i]);
      }
      if warnings != [] {
        var before := head + JoinWith(bi, '\n') + "\n\n⚠️ 경고사항:\n";
        assert message == before + JoinWith(bw, '\n');
        forall i | 0 <= i < |warnings| ensures Contains(message, "• " + warnings[i]) {
          JoinWithContains(bw, '\n', i);
          ContainsPrefixed(before, JoinWith(bw, '\n'), bw[i]);
        }
      }
    } else if warnings != [] {
      var head := "⚠️ 경고사항이 있습니다:\n";
      assert message == head + JoinWith(bw, '\n') + AskToContinue;
      forall i | 0 <= i < |warnings| ensures Contains(message, "• " + warnings[i]) {
        JoinWithContains(bw, '\n', i);
        ContainsPrefixed(head, JoinWith(bw, '\n'), bw[i]);
        ContainsExtend(head + JoinWith(bw, '\n'), AskToContinue, bw[i]);
      }
    }
  }

  /** Without issues, the message asks whether to go on exactly when there
      are warnings. */
  lemma SummaryAsks(issues: seq<string>, warnings: seq<string>, python: string, disk: string, memory: string)
    requires issues == []
    ensures EndsWith(Summary(issues, warnings, python, disk, memory).1, AskToContinue) <==> warnings != []
  {
    var message := Summary(issues, warnings, python, disk, memory).1;
    if warnings != [] {
      var body := "⚠️ 경고사항이 있습니다:\n" + JoinWith(Bullets(warnings), '\n');
      assert message == body + AskToContinue;
      assert message[|message| - |AskToContinue|..] == AskToContinue;
    } else {
      var last := "• 기존 서비스: 충돌 없음";
      assert message[|message| - 1] == last[|last| - 1] == '음';
      assert AskToContinue[|AskToContinue| - 1] == '?';
    }
  }

  /** When the session cannot be opened or a command raises, the outcome is
      false and the message carries the error: the connection's, or that of
      the first command that raised. */
  lemma StatusWithoutSession(o: Oracle)
    ensures !o.Opens(RunSession(CheckCommands)) ==>
      Status(CheckResults(o, CheckCommands)) == (false, "SSH 연결 오류: " + o.ConnectError(RunSession(CheckCommands)))
    ensures o.Opens(RunSession(CheckCommands)) && !NoneRaise(o, CheckCommands) ==>
      Status(CheckResults(o, CheckCommands))
      == (false, "SSH 연결 오류: " + o.ReplyTo(CheckCommands[FirstRaise(o, CheckCommands)]).reason)
  {
    if o.Opens(RunSession(CheckCommands)) && !NoneRaise(o, CheckCommands) {
      CollectStopsAtRaise(o, CheckCommands, map[], FirstRaise(o, CheckCommands));
    }
  }

  /** When every command completes, the outcome is true exactly when neither
      the reply to `python3 --version` (the first command) nor the `df` line
      (the sixth) raises an issue; the other seven replies can only add warnings or nothing. */
  lemma StatusOfReplies(o: Oracle)
    requires o.Opens(RunSession(CheckCommands)) && NoneRaise(o, CheckCommands)
    ensures Status(CheckResults(o, CheckCommands)).0
      <==> !PythonCheck(Record(o.ReplyTo(CheckCommands[0]))).Issue?
           && !DiskCheck(Record(o.ReplyTo(CheckCommands[5])).Output()).Issue?
  {
    CheckResultsShape(o, CheckCommands);
    var m := CheckResults(o, CheckCommands).entries;
    assert Lookup(m, PythonCommand) == Record(o.ReplyTo(CheckCommands[0]));
    assert Lookup(m, DiskCommand) == Record(o.ReplyTo(CheckCommands[5]));
    IssuesFrom(m);
  }

  /** The issue list is empty exactly when neither the Python nor the disk
      check raises an issue. */
  lemma IssuesFrom(m: map<string, CheckResult>)
    ensures Status(Results(m)).0
      <==> !PythonCheck(Lookup(m, PythonCommand)).Issue? && !DiskCheck(Lookup(m, DiskCommand).Output()).Issue?
  {
  }

  /** `check_server_status(ip, password)`: runs the nine check commands on one
      connection, then classifies what they printed. */
  method CheckServerStatus(h: Host) returns (ok: bool, message: string)
    modifies h
    ensures h.trace == old(h.trace) + Batch(h.oracle, CheckCommands)
    ensures (ok, message) == Status(CheckResults(h.oracle, CheckCommands))
  {
    var results := RunCheckCommands(h, CheckCommands);
    if results.Failed? {
      return false, "SSH 연결 오류: " + results.error;
    }
    ok, message := Classify(results.entries);
  }

  /** The part of `check_server_status` after the commands ran: the five
      checks, the two lists they fill, and the summary built from both. */
  method Classify(m: map<string, CheckResult>) returns (ok: bool, message: string)
    ensures (ok, message) == Status(Results(m))
  {
    var python := PythonCheck(Lookup(m, PythonCommand));
    var port := PortCheck(Lookup(m, PortCommand).Output());
    var flask := FlaskCheck(Lookup(m, FlaskCommand).Output());
    var disk := DiskCheck(Lookup(m, DiskCommand).Output());
    var nginx := NginxCheck(Lookup(m, NginxCommand).Output());
    var issues, warnings := Tally(python, port, flask, disk, nginx);
    var summary := Summary(issues, warnings, Lookup(m, PythonCommand).Output(),
                           Lookup(m, DiskCommand).Output(), Lookup(m, MemoryCommand).Output());
    ok, message := summary.0, summary.1;
  }

  /** The appends of `check_server_status`: each check adds its text to the
      issue list or to the warning list, in the order the checks run. The
      Python check never warns and the port, Flask and nginx checks never
      raise an issue. */
  method Tally(python: Finding, port: Finding, flask: Finding, disk: Finding, nginx: Finding)
    returns (issues: seq<string>, warnings: seq<string>)
    requires !python.Warning? && !port.Issue? && !flask.Issue? && !nginx.Issue?
    ensures issues == IssueOf(python) + IssueOf(disk)
    ensures warnings == WarningOf(port) + WarningOf(flask) + WarningOf(disk) + WarningOf(nginx)
  {
    issues, warnings := [], [];
    if python.Issue? {
      issues := issues + [python.text];
    }
    assert issues == IssueOf(python);
    if port.Warning? {
      warnings := warnings + [port.text];
    }
    assert warnings == WarningOf(port);
    if flask.Warning? {
      warnings := warnings + [flask.text];
    }
    assert warnings == WarningOf(port) + WarningOf(flask);
    if disk.Issue? {
      issues := issues + [disk.text];
    } else if disk.Warning? {
      warnings := warnings + [disk.text];
    }
    assert warnings == WarningOf(port) + WarningOf(flask) + WarningOf(disk);
    if nginx.Warning? {
      warnings := warnings + [nginx.text];
    }
  }

  // ---------------------------------------------------------------------------
  // auto_cleanup_server

  /** The commands of `auto_cleanup_server`; each falls back to an `echo`, so
      only an exception can make one fail. */
  const AutoCleanupCommands: seq<string> := [
    "sudo systemctl stop flask 2>/dev/null || echo '기존 flask 서비스 없음'",
    "sudo systemctl disable flask 2>/dev/null || echo '기존 flask 서비스 없음'",
    "sudo pkill -f 'gunicorn.*5000' 2>/dev/null || echo '기존 gunicorn 프로세스 없음'",
    "echo '서버 정리 완료'"
  ]

  /** `auto_cleanup_server(ip, password)` given what `run_check_commands` returned. */
  function CleanupStatus(results: Results): (bool, string) {
    match results
    case Failed(e) => (false, "서버 정리 중 오류: " + e)
    case Results(_) => (true, "서버 정리가 완료되었습니다.")
  }

  method AutoCleanupServer(h: Host) returns (ok: bool, message: string)
    modifies h
    ensures h.trace == old(h.trace) + Batch(h.oracle, AutoCleanupCommands)
    ensures (ok, message) == CleanupStatus(CheckResults(h.oracle, AutoCleanupCommands))
  {
    var results := RunCheckCommands(h, AutoCleanupCommands);
    if results.Failed? {
      return false, "서버 정리 중 오류: " + results.error;
    }
    ok, message := true, "서버 정리가 완료되었습니다.";
  }

  /** The clean-up succeeds exactly when the session opens and none of the four
      commands raises; what they print and their exit statuses never matter. */
  lemma CleanupOutcome(o: Oracle)
    ensures CleanupStatus(CheckResults(o, AutoCleanupCommands)).0
      <==> o.Opens(RunSession(AutoCleanupCommands)) && NoneRaise(o, AutoCleanupCommands)
    ensures !o.Opens(RunSession(AutoCleanupCommands)) ==>
      CleanupStatus(CheckResults(o, AutoCleanupCommands)).1
      == "서버 정리 중 오류: " + o.ConnectError(RunSession(AutoCleanupCommands))
  {
    CheckResultsShape(o, AutoCleanupCommands);
  }
}
