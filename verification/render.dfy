/**
  The two files the deployment writes on the server (`get_content`,
  `get_filepath`) and the shell command that writes them (`edit_config`).
  Each comes with a reader that takes the result apart again: an INI
  `key = value` reader for the site configuration, an nginx directive reader
  for the virtual host, and a parser for the heredoc command.
*/
module Render {
  import opened Wrappers
  import opened Text
  import NginxSite

  /** The `data` dictionary: each value may be `None`. */
  datatype SiteData = SiteData(domain: Option<string>, black: Option<string>, blackLink: Option<string>)

  /** `value or ''` for a string that may be `None`. */
  function OrEmpty(v: Option<string>): string {
    if v.Some? then v.value else ""
  }

  /** The files `edit_config` knows how to write. */
  datatype Artifact = Nginx | Config

  /** The key of the `contents` / file-path dictionaries; any other name is a `KeyError`. */
  function ArtifactNamed(name: string): (r: Option<Artifact>)
    ensures r == Some(Nginx) <==> name == "nginx"
    ensures r == Some(Config) <==> name == "config"
  {
    if name == "nginx" then Some(Nginx)
    else if name == "config" then Some(Config)
    else None
  }

  function Name(a: Artifact): string {
    match a
    case Nginx => "nginx"
    case Config => "config"
  }

  function ConfigLines(domain: string, black: string, blackLink: string): seq<string> {
    [ "",
      "[site]",
      Assign("SITE", true, domain),
      Assign("BLACK", false, black),
      Assign("BLACK_LIST", true, blackLink),
      "" ]
  }

  /** One `key = value` line of the configuration, with or without a space before the `=`. */
  function Assign(key: string, spaced: bool, value: string): string {
    key + (if spaced then " = " else "= ") + value
  }

  /** The lines of a rendered file, missing values written as empty strings. */
  function Template(a: Artifact, d: SiteData): seq<string> {
    match a
    case Nginx => NginxSite.Site(OrEmpty(d.domain))
    case Config => ConfigLines(OrEmpty(d.domain), OrEmpty(d.black), OrEmpty(d.blackLink))
  }

  /** `get_content(name, data)`: the text of the file; `None` is the `KeyError`. */
  function GetContent(name: string, d: SiteData): (r: Option<string>)
    ensures r.Some? <==> ArtifactNamed(name).Some?
  {
    match ArtifactNamed(name)
    case None => None
    case Some(a) => Some(Join(Template(a, d)))
  }

  /** Where each file lives on the server. */
  function Filepath(a: Artifact): string {
    match a
    case Nginx => "/etc/nginx/sites-enabled/default"
    case Config => "/root/project/config.ini"
  }

  /** `get_filepath(name)`; `None` is the `KeyError`. */
  function GetFilepath(name: string): (r: Option<string>)
    ensures r.Some? <==> ArtifactNamed(name).Some?
    ensures r.Some? ==> StartsWith(r.value, "/")
  {
    match ArtifactNamed(name)
    case None => None
    case Some(a) => Some(Filepath(a))
  }

  // ---------------------------------------------------------------------------
  // The write command

  const ShellOpen := "sudo bash -c '"
  const CatTo := "cat > "
  const HereDoc := " << \"EOF\""

  function TempFile(name: string): string {
    "/tmp/" + name + "_config"
  }

  /** One shell command that writes `content` to `temp` with a quoted heredoc
      and then moves `temp` onto `path`. */
  function WriteCommand(temp: string, content: string, path: string): string {
    ShellOpen + Join([HeaderLine(temp), content, "EOF", MoveLine(temp, path)]) + "'"
  }

  /** The first line of the script: `cat > temp << "EOF"`. */
  function HeaderLine(temp: string): string {
    CatTo + temp + HereDoc
  }

  /** The last line of the script: `mv temp path`. */
  function MoveLine(temp: string, path: string): string {
    "mv " + temp + " " + path
  }

  /** The command `edit_config` issues for artifact `a`. */
  function EditCommand(a: Artifact, d: SiteData): string {
    WriteCommand(TempFile(Name(a)), Join(Template(a, d)), Filepath(a))
  }

  /** What a heredoc-and-move script does: write the lines `body` to `temp`,
      then move `source` onto `target`. */
  datatype Script = Script(temp: string, body: seq<string>, source: string, target: string)

  /** Everything before and after the first `c` of `s`. */
  function SplitAt(s: string, c: char): (r: Option<(string, string)>)
    ensures r.None? <==> c !in s
    ensures r.Some? ==> c !in r.value.0
    decreases |s|
  {
    if s == [] then None
    else if s[0] == c then Some(([], s[1..]))
    else match SplitAt(s[1..], c) {
      case None => None
      case Some(kv) => Some(([s[0]] + kv.0, kv.1))
    }
  }

  /** Splitting at a separator that does not occur before it recovers both sides. */
  lemma {:induction false} SplitAtFirst(a: string, c: char, b: string)
    requires c !in a
    ensures SplitAt(a + [c] + b, c) == Some((a, b))
    decreases |a|
  {
    if a == [] {
      assert a + [c] + b == [c] + b;
      assert ([c] + b)[1..] == b;
    } else {
      assert (a + [c] + b)[1..] == a[1..] + [c] + b;
      SplitAtFirst(a[1..], c, b);
      assert [a[0]] + a[1..] == a;
    }
  }

  /** Position of the first line that is exactly `EOF`, which ends a heredoc. */
  function Terminator(ls: seq<string>): (r: Option<nat>)
    ensures r.Some? ==> r.value < |ls| && ls[r.value] == "EOF" && "EOF" !in ls[..r.value]
    ensures r.None? ==> "EOF" !in ls
    decreases |ls|
  {
    if ls == [] then None
    else if ls[0] == "EOF" then Some(0)
    else match Terminator(ls[1..]) {
      case None => None
      case Some(k) =>
        assert ls[..k + 1] == [ls[0]] + ls[1..][..k];
        Some(k + 1)
    }
  }

  lemma TerminatorAfter(body: seq<string>, rest: seq<string>)
    requires "EOF" !in body
    ensures Terminator(body + ["EOF"] + rest) == Some(|body|)
  {
    var ls := body + ["EOF"] + rest;
    assert ls[|body|] == "EOF";
    assert ls[..|body|] == body;
  }

  /** How `bash -c` runs the single-quoted script of a command of the form
      `sudo bash -c '<script>'` whose script is `cat > T << "EOF"`, the body
      lines, `EOF`, and one `mv S D` line; `None` for any other command. */
  function ParseWrite(cmd: string): Option<Script> {
    if |cmd| < |ShellOpen| + 1 || !StartsWith(cmd, ShellOpen) || cmd[|cmd| - 1] != '\'' then None
    else
      var script := cmd[|ShellOpen|..|cmd| - 1];
      if '\'' in script then None else ParseScript(Lines(script))
  }

  function ParseScript(ls: seq<string>): Option<Script>
    requires |ls| >= 1
  {
    var header := ls[0];
    if |header| < |CatTo| + |HereDoc| || !StartsWith(header, CatTo) || !EndsWith(header, HereDoc) then None
    else
      var temp := header[|CatTo|..|header| - |HereDoc|];
      match Terminator(ls[1..]) {
        case None => None
        case Some(k) =>
          var after := ls[1..][k + 1..];
          if |after| != 1 || !StartsWith(after[0], "mv ") then None
          else match SplitAt(after[0][3..], ' ') {
            case None => None
            case Some(st) =>
              if temp == [] || ' ' in temp || st.0 == [] || st.1 == [] || ' ' in st.1 then None
              else Some(Script(temp, ls[1..][..k], st.0, st.1))
          }
      }
  }

  /** A word the shell keeps as one argument inside the single-quoted script. */
  predicate Word(s: string) {
    s != [] && Token(s)
  }

  /** The script as the shell splits it into lines. */
  lemma ScriptLines(header: string, content: string, move: string)
    requires '\n' !in header && '\n' !in move
    ensures Lines(Join([header, content, "EOF", move])) == [header] + Lines(content) + ["EOF", move]
  {
    JoinFour(header, content, "EOF", move);
    LinesOfLine(header);
    LinesOfLine(move);
    LinesOfLine("EOF");
    LinesAround("EOF", move);
    LinesAround(content, "EOF" + "\n" + move);
    LinesAround(header, content + "\n" + ("EOF" + "\n" + move));
  }

  lemma JoinFour(a: string, b: string, c: string, d: string)
    ensures Join([a, b, c, d]) == a + "\n" + (b + "\n" + (c + "\n" + d))
  {
    assert [c, d][1..] == [d];
    assert JoinWith([c, d], '\n') == c + "\n" + d;
    assert [b, c, d][1..] == [c, d];
    assert JoinWith([b, c, d], '\n') == b + "\n" + JoinWith([c, d], '\n');
    assert [a, b, c, d][1..] == [b, c, d];
  }

  /** A script made of the header, the body, `EOF` and the move parses into those parts. */
  lemma ParseScriptOf(temp: string, body: seq<string>, path: string)
    requires Word(temp) && Word(path) && "EOF" !in body
    ensures ParseScript([HeaderLine(temp)] + body + ["EOF", MoveLine(temp, path)])
         == Some(Script(temp, body, temp, path))
  {
    var header := HeaderLine(temp);
    var move := MoveLine(temp, path);
    var ls := [header] + body + ["EOF", move];
    assert ls[0] == header;
    assert header[..|CatTo|] == CatTo;
    assert header[|header| - |HereDoc|..] == HereDoc;
    assert header[|CatTo|..|header| - |HereDoc|] == temp;
    assert ls[1..] == body + ["EOF"] + [move];
    TerminatorAfter(body, [move]);
    assert ls[1..][|body| + 1..] == [move];
    assert ls[1..][..|body|] == body;
    assert move[..3] == "mv ";
    assert move[3..] == temp + [' '] + path;
    SplitAtFirst(temp, ' ', path);
  }

  /** The script of a write command parses into its parts. */
  lemma WriteScriptParses(temp: string, content: string, path: string)
    requires Word(temp) && Word(path) && "EOF" !in Lines(content)
    ensures ParseScript(Lines(Join([HeaderLine(temp), content, "EOF", MoveLine(temp, path)])))
         == Some(Script(temp, Lines(content), temp, path))
  {
    ScriptLines(HeaderLine(temp), content, MoveLine(temp, path));
    ParseScriptOf(temp, Lines(content), path);
  }

  /** A command that wraps a quote-free script in `sudo bash -c '...'` runs that script. */
  lemma UnwrapShell(script: string)
    requires '\'' !in script
    ensures ParseWrite(ShellOpen + script + "'") == ParseScript(Lines(script))
  {
    var cmd := ShellOpen + script + "'";
    assert cmd[..|ShellOpen|] == ShellOpen;
    assert cmd[|ShellOpen|..|cmd| - 1] == script;
  }

  lemma WriteScriptQuoteFree(temp: string, content: string, path: string)
    requires Word(temp) && Word(path) && '\'' !in content
    ensures '\'' !in Join([HeaderLine(temp), content, "EOF", MoveLine(temp, path)])
  {
    JoinFour(HeaderLine(temp), content, "EOF", MoveLine(temp, path));
  }

  /** The write command parses back into its parts: the script writes exactly the
      lines of `content` to `temp` and then moves `temp` onto `path`. */
  lemma WriteCommandParses(temp: string, content: string, path: string)
    requires Word(temp) && Word(path)
    requires '\'' !in content && "EOF" !in Lines(content)
    ensures ParseWrite(WriteCommand(temp, content, path)) == Some(Script(temp, Lines(content), temp, path))
  {
    WriteScriptQuoteFree(temp, content, path);
    UnwrapShell(Join([HeaderLine(temp), content, "EOF", MoveLine(temp, path)]));
    WriteScriptParses(temp, content, path);
  }

  // ---------------------------------------------------------------------------
  // Reading the site configuration back

  /** The value of `key` in a list of INI lines: the first `key = value` line,
      split at its first `=`, both sides stripped of white space. */
  function Setting(lines: seq<string>, key: string): Option<string>
    decreases |lines|
  {
    if lines == [] then None
    else match SplitAt(lines[0], '=') {
      case Some(kv) => if Strip(kv.0) == key then Some(Strip(kv.1)) else Setting(lines[1..], key)
      case None => Setting(lines[1..], key)
    }
  }

  /** A value the configuration carries unchanged: one line, no surrounding white space. */
  predicate Plain(v: string) {
    '\n' !in v && Strip(v) == v
  }

  /** Line `l` assigns `key`. */
  predicate Assigns(l: string, key: string) {
    SplitAt(l, '=').Some? && Strip(SplitAt(l, '=').value.0) == key
  }

  /** Lines that do not assign `key` are passed over. */
  lemma {:induction false} SettingSkip(pre: seq<string>, rest: seq<string>, key: string)
    requires forall i | 0 <= i < |pre| :: !Assigns(pre[i], key)
    ensures Setting(pre + rest, key) == Setting(rest, key)
    decreases |pre|
  {
    if pre != [] {
      var ls := pre + rest;
      assert ls[0] == pre[0] && !Assigns(ls[0], key);
      assert Setting(ls, key) == Setting(ls[1..], key);
      assert ls[1..] == pre[1..] + rest;
      SettingSkip(pre[1..], rest, key);
    } else {
      assert pre + rest == rest;
    }
  }

  lemma StripAfterSpace(v: string)
    requires Strip(v) == v
    ensures Strip(" " + v) == v
  {
    assert (" " + v)[1..] == v;
  }

  /** A key written with one trailing space strips back to the key. */
  lemma StripKey(k: string)
    requires k != [] && !IsSpace(k[0]) && !IsSpace(k[|k| - 1])
    ensures Strip(k + " ") == k && Strip(k) == k
  {
    var t := k + " ";
    assert t[0] == k[0] && LeadingSpace(t) == 0;
    assert t[..|t| - 1] == k;
    assert TrailingSpace(t) == 1 + TrailingSpace(k) == 1;
    assert t[0..] == t && t[..|t| - 1] == k;
    assert LeadingSpace(k) == 0 && k[0..] == k;
    assert TrailingSpace(k) == 0 && k[..|k|] == k;
  }

  /** The value an assignment line gives, stripped. */
  function Value(l: string): string
    requires SplitAt(l, '=').Some?
  {
    Strip(SplitAt(l, '=').value.1)
  }

  /** A first line that assigns `key` decides its value; any other is passed over. */
  lemma SettingCons(l: string, rest: seq<string>, key: string)
    ensures Setting([l] + rest, key) == if Assigns(l, key) then Some(Value(l)) else Setting(rest, key)
  {
    assert ([l] + rest)[0] == l;
    assert ([l] + rest)[1..] == rest;
  }

  /** A key the reader can find: no `=` and no white space at either end. */
  predicate Key(k: string) {
    k != [] && '=' !in k && !IsSpace(k[0]) && !IsSpace(k[|k| - 1])
  }

  /** How the reader sees an `Assign` line: it assigns exactly `key`, and the
      value it reads is the one written when that value is stripped. */
  lemma AssignmentLine(key: string, spaced: bool, v: string, k: string)
    requires Key(key) && Strip(v) == v
    ensures Assigns(Assign(key, spaced, v), k) <==> k == key
    ensures Strip(SplitAt(Assign(key, spaced, v), '=').value.1) == v
  {
    var left := if spaced then key + " " else key;
    assert Assign(key, spaced, v) == left + ['='] + (" " + v) by {
      assert " = " == " " + "=" + " ";
    }
    StripKey(key);
    SplitAtFirst(left, '=', " " + v);
    StripAfterSpace(v);
  }

  /** Each value of the configuration is found on the line that assigns it,
      since no earlier line assigns the same key. */
  lemma ConfigSettings(site: string, black: string, link: string)
    requires Strip(site) == site && Strip(black) == black && Strip(link) == link
    ensures var ls := ConfigLines(site, black, link);
      && Setting(ls, "SITE") == Some(site)
      && Setting(ls, "BLACK") == Some(black)
      && Setting(ls, "BLACK_LIST") == Some(link)
  {
    // The keys are passed as variables so that the solver does not evaluate `Strip` on literals.
    var k2, k3, k4 := "SITE", "BLACK", "BLACK_LIST";
    assert '=' !in "[site]";
    ConfigSetting(k2, k3, k4, site, black, link, k2);
    ConfigSetting(k2, k3, k4, site, black, link, k3);
    ConfigSetting(k2, k3, k4, site, black, link, k4);
  }

  /** The reader run on the configuration lines, key by key. */
  lemma ConfigSetting(k2: string, k3: string, k4: string, site: string, black: string, link: string, key: string)
    requires Key(k2) && Key(k3) && Key(k4) && k2 != k3 && k2 != k4 && k3 != k4
    requires Strip(site) == site && Strip(black) == black && Strip(link) == link
    requires !Assigns("", key) && !Assigns("[site]", key)
    ensures var ls := ["", "[site]", Assign(k2, true, site), Assign(k3, false, black), Assign(k4, true, link), ""];
      Setting(ls, key) == if key == k2 then Some(site) else if key == k3 then Some(black)
                          else if key == k4 then Some(link) else None
  {
    AssignmentLine(k2, true, site, key);
    AssignmentLine(k3, false, black, key);
    AssignmentLine(k4, true, link, key);
    ReadLines(Assign(k2, true, site), Assign(k3, false, black), Assign(k4, true, link), key);
  }

  /** The reader on the shape of the configuration: the first of the three
      assignment lines that assigns `key` gives its value. */
  lemma ReadLines(l2: string, l3: string, l4: string, key: string)
    requires !Assigns("", key) && !Assigns("[site]", key)
    ensures var ls := ["", "[site]", l2, l3, l4, ""];
      Setting(ls, key) == if Assigns(l2, key) then Some(Value(l2))
                          else if Assigns(l3, key) then Some(Value(l3))
                          else if Assigns(l4, key) then Some(Value(l4))
                          else None
  {
    var ls := ["", "[site]", l2, l3, l4, ""];
    SettingCons("", ["[site]", l2, l3, l4, ""], key);
    SettingCons("[site]", [l2, l3, l4, ""], key);
    SettingCons(l2, [l3, l4, ""], key);
    SettingCons(l3, [l4, ""], key);
    SettingCons(l4, [""], key);
    SettingCons("", [], key);
    assert ls == [""] + ["[site]", l2, l3, l4, ""];
    assert ["[site]", l2, l3, l4, ""] == ["[site]"] + [l2, l3, l4, ""];
    assert [l2, l3, l4, ""] == [l2] + [l3, l4, ""];
    assert [l3, l4, ""] == [l3] + [l4, ""];
    assert [l4, ""] == [l4] + [""];
    assert [""] == [""] + [];
  }

  /** The rendered configuration reads back as written: its second line opens
      the `[site]` section, and `SITE`, `BLACK` and `BLACK_LIST` hold the domain,
      the black page and the black-list link. */
  lemma ConfigRoundTrip(d: SiteData)
    requires Plain(OrEmpty(d.domain)) && Plain(OrEmpty(d.black)) && Plain(OrEmpty(d.blackLink))
    ensures GetContent("config", d).Some?
    ensures var ls := Lines(GetContent("config", d).value);
      && ls[1] == "[site]"
      && Setting(ls, "SITE") == Some(OrEmpty(d.domain))
      && Setting(ls, "BLACK") == Some(OrEmpty(d.black))
      && Setting(ls, "BLACK_LIST") == Some(OrEmpty(d.blackLink))
  {
    var site, black, link := OrEmpty(d.domain), OrEmpty(d.black), OrEmpty(d.blackLink);
    LinesJoin(ConfigLines(site, black, link));
    ConfigSettings(site, black, link);
  }

  /** The rendered virtual host reads back as its directives: the two `listen`s,
      `server_name www.<domain> <domain>`, and the proxy settings, in that order. */
  lemma NginxRoundTrip(d: SiteData)
    requires Token(OrEmpty(d.domain))
    ensures GetContent("nginx", d).Some?
    ensures NginxSite.Directives(Lines(GetContent("nginx", d).value))
         == NginxSite.Listen() + [NginxSite.ServerName(OrEmpty(d.domain))] + NginxSite.Proxy()
  {
    var domain := OrEmpty(d.domain);
    NginxSite.SiteClean(domain);
    LinesJoin(NginxSite.Site(domain));
    NginxSite.SiteDirectives(domain);
  }

  // ---------------------------------------------------------------------------
  // The command `edit_config` sends, end to end

  lemma {:induction false} JoinClean(ls: seq<string>)
    requires forall i | 0 <= i < |ls| :: Clean(ls[i])
    ensures '\'' !in Join(ls)
    decreases |ls|
  {
    if |ls| > 1 {
      JoinClean(ls[1..]);
      assert '\'' !in ls[0];
    } else if |ls| == 1 {
      assert '\'' !in ls[0];
    }
  }

  lemma ConfigBody(site: string, black: string, link: string)
    requires Clean(site) && Clean(black) && Clean(link)
    ensures HereDocBody(ConfigLines(site, black, link))
  {
  }

  /** Any clean lines, joined into a file, are written exactly by the command. */
  lemma WriteLines(temp: string, ls: seq<string>, path: string)
    requires Word(temp) && Word(path) && HereDocBody(ls) && |ls| >= 1
    ensures ParseWrite(WriteCommand(temp, Join(ls), path)) == Some(Script(temp, ls, temp, path))
  {
    LinesJoin(ls);
    JoinClean(ls);
    WriteCommandParses(temp, Join(ls), path);
  }

  /** Whenever the site data holds no newline and no single quote, the command
      for either file, run by the shell, writes exactly the rendered lines to
      `/tmp/<name>_config` and then moves that file onto the file's path. */
  lemma EditCommandWrites(a: Artifact, d: SiteData)
    requires Clean(OrEmpty(d.domain)) && Clean(OrEmpty(d.black)) && Clean(OrEmpty(d.blackLink))
    ensures ParseWrite(EditCommand(a, d))
         == Some(Script(TempFile(Name(a)), Template(a, d), TempFile(Name(a)), Filepath(a)))
  {
    match a {
      case Nginx =>
        NginxSite.SiteClean(OrEmpty(d.domain));
      case Config =>
        ConfigBody(OrEmpty(d.domain), OrEmpty(d.black), OrEmpty(d.blackLink));
    }
    TargetsAreWords(a);
    WriteLines(TempFile(Name(a)), Template(a, d), Filepath(a));
  }

  lemma TargetsAreWords(a: Artifact)
    ensures Word(TempFile(Name(a))) && Word(Filepath(a))
  {
    TempFileWord(a);
    FilepathWord(a);
  }

  lemma TempFileWord(a: Artifact)
    ensures Word(TempFile(Name(a)))
  {
  }

  lemma FilepathWord(a: Artifact)
    ensures Word(Filepath(a))
  {
    match a
    case Nginx => SitePathWord();
    case Config => ConfigPathWord();
  }

  lemma SitePathWord()
    ensures Word(Filepath(Nginx))
  {
  }

  lemma ConfigPathWord()
    ensures Word(Filepath(Config))
  {
  }
}
