/**
  The nginx virtual host that `get_content('nginx', data)` renders, described
  by the directives it consists of, and a reader that recovers those
  directives from the text the way nginx tokenizes a simple directive.
*/
module NginxSite {
  import opened Wrappers
  import opened Text

  /** A simple directive `name arg1 arg2 ...;`. */
  datatype Directive = Directive(name: string, args: seq<string>)

  const Indent8 := "        "
  const Indent12 := "            "

  /** A directive on one line: indentation, its words separated by single spaces, then `;`. */
  function Line(indent: string, d: Directive): string {
    indent + JoinWith([d.name] + d.args, ' ') + ";"
  }

  function DirectiveLines(indent: string, ds: seq<Directive>): (r: seq<string>)
    ensures |r| == |ds| && forall i | 0 <= i < |ds| :: r[i] == Line(indent, ds[i])
    decreases |ds|
  {
    if ds == [] then [] else [Line(indent, ds[0])] + DirectiveLines(indent, ds[1..])
  }

  /** Listen on port 80 for IPv4 and IPv6, as the default server. */
  function Listen(): seq<Directive> {
    [ Directive("listen", ["80", "default_server"]),
      Directive("listen", ["[::]:80", "default_server"]) ]
  }

  /** Answer for the domain with and without `www.`. */
  function ServerName(domain: string): Directive {
    Directive("server_name", ["www." + domain, domain])
  }

  /** The body of `location /`: hand every request to the application on
      port 5000, passing the client's address, WebSocket upgrades and the host. */
  function Proxy(): seq<Directive> {
    Forward() + ClientAddress() + WebSocket() + HostHeader()
  }

  function Forward(): seq<Directive> {
    [ Directive("include", ["proxy_params"]),
      Directive("proxy_pass", ["http://localhost:5000"]) ]
  }

  function ClientAddress(): seq<Directive> {
    [ Directive("proxy_set_header", ["X-Real-IP", "$remote_addr"]),
      Directive("proxy_set_header", ["X-Forwarded-For", "$proxy_add_x_forwarded_for"]) ]
  }

  function WebSocket(): seq<Directive> {
    [ Directive("proxy_http_version", ["1.1"]),
      Directive("proxy_set_header", ["Upgrade", "$http_upgrade"]),
      Directive("proxy_set_header", ["Connection", "\"upgrade\""]) ]
  }

  function HostHeader(): seq<Directive> {
    [ Directive("proxy_set_header", ["Host", "$host"]),
      Directive("proxy_cache_bypass", ["$http_upgrade"]) ]
  }

  /** The lines of the site, laid out as the template lays them out. */
  function Site(domain: string): seq<string> {
    ["", "server {"] + DirectiveLines(Indent8, Listen())
    + ["", Line(Indent8, ServerName(domain)), Indent8, Indent8 + "location / {"]
    + DirectiveLines(Indent12, Proxy())
    + [Indent8 + "}", "}", ""]
  }

  // ---------------------------------------------------------------------------
  // Reading the directives back

  /** `s` without its leading spaces. */
  function Dedent(s: string): (r: string)
    ensures r == [] || r[0] != ' '
    decreases |s|
  {
    if s != [] && s[0] == ' ' then Dedent(s[1..]) else s
  }

  /** The directive a line holds: after the indentation, words separated by
      spaces and ended by `;`. Blank lines and block braces hold none. */
  function ParseLine(l: string): Option<Directive> {
    var t := Dedent(l);
    if t == [] || t[|t| - 1] != ';' then None
    else
      var words := Split(t[..|t| - 1], ' ');
      Some(Directive(words[0], words[1..]))
  }

  /** The directives of a text, in order. */
  function Directives(ls: seq<string>): seq<Directive>
    decreases |ls|
  {
    if ls == [] then []
    else
      match ParseLine(ls[0]) {
        case None => Directives(ls[1..])
        case Some(d) => [d] + Directives(ls[1..])
      }
  }

  lemma {:induction false} DirectivesAppend(a: seq<string>, b: seq<string>)
    ensures Directives(a + b) == Directives(a) + Directives(b)
    decreases |a|
  {
    if a == [] {
      assert a + b == b;
    } else {
      assert (a + b)[0] == a[0];
      assert (a + b)[1..] == a[1..] + b;
      DirectivesAppend(a[1..], b);
    }
  }

  predicate Spaces(s: string) {
    forall i | 0 <= i < |s| :: s[i] == ' '
  }

  lemma {:induction false} DedentSpaces(s: string, t: string)
    requires Spaces(s) && (t == [] || t[0] != ' ')
    ensures Dedent(s + t) == t
    decreases |s|
  {
    if s == [] {
      assert s + t == t;
    } else {
      assert (s + t)[0] == ' ';
      assert (s + t)[1..] == s[1..] + t;
      DedentSpaces(s[1..], t);
    }
  }

  /** A directive that can be written on one line and read back. */
  predicate Simple(d: Directive) {
    d.name != [] && Token(d.name) && forall i | 0 <= i < |d.args| :: Token(d.args[i])
  }

  lemma ParseLineOf(indent: string, d: Directive)
    requires Spaces(indent) && Simple(d)
    ensures ParseLine(Line(indent, d)) == Some(d)
  {
    var words := [d.name] + d.args;
    var body := JoinWith(words, ' ');
    forall i | 0 <= i < |words| ensures ' ' !in words[i] {
      assert Token(words[i]);
    }
    assert body[0] == d.name[0] by {
      if |words| > 1 {
        assert body == d.name + [' '] + JoinWith(words[1..], ' ');
      }
    }
    DedentSpaces(indent, body + ";");
    assert Line(indent, d) == indent + (body + ";");
    assert (body + ";")[..|body|] == body;
    SplitJoin(words, ' ');
  }

  lemma {:induction false} DirectivesOfLines(indent: string, ds: seq<Directive>)
    requires Spaces(indent)
    requires forall i | 0 <= i < |ds| :: Simple(ds[i])
    ensures Directives(DirectiveLines(indent, ds)) == ds
    decreases |ds|
  {
    if ds != [] {
      ParseLineOf(indent, ds[0]);
      DirectivesOfLines(indent, ds[1..]);
      var ls := DirectiveLines(indent, ds);
      assert ls[1..] == DirectiveLines(indent, ds[1..]);
      assert [ds[0]] + ds[1..] == ds;
    }
  }

  predicate AllSimple(ds: seq<Directive>) {
    forall i | 0 <= i < |ds| :: Simple(ds[i])
  }

  lemma AllSimpleAppend(a: seq<Directive>, b: seq<Directive>)
    requires AllSimple(a) && AllSimple(b)
    ensures AllSimple(a + b)
  {
  }

  lemma SimpleOne(name: string, arg: string)
    requires name != [] && Token(name) && Token(arg)
    ensures Simple(Directive(name, [arg]))
  {
  }

  lemma SimpleTwo(name: string, arg1: string, arg2: string)
    requires name != [] && Token(name) && Token(arg1) && Token(arg2)
    ensures Simple(Directive(name, [arg1, arg2]))
  {
  }

  lemma ListenSimple()
    ensures AllSimple(Listen())
  {
    SimpleTwo("listen", "80", "default_server");
    SimpleTwo("listen", "[::]:80", "default_server");
  }

  lemma ForwardSimple()
    ensures AllSimple(Forward())
  {
    IncludeSimple();
    ProxyPassSimple();
  }

  lemma IncludeSimple()
    ensures Simple(Forward()[0])
  {
    SimpleOne("include", "proxy_params");
  }

  lemma ProxyPassSimple()
    ensures Simple(Forward()[1])
  {
    SimpleOne("proxy_pass", "http://localhost:5000");
  }

  lemma ClientAddressSimple()
    ensures AllSimple(ClientAddress())
  {
    RealIpSimple();
    ForwardedForSimple();
  }

  lemma RealIpSimple()
    ensures Simple(ClientAddress()[0])
  {
    SimpleTwo("proxy_set_header", "X-Real-IP", "$remote_addr");
  }

  lemma ForwardedForSimple()
    ensures Simple(ClientAddress()[1])
  {
    SimpleTwo("proxy_set_header", "X-Forwarded-For", "$proxy_add_x_forwarded_for");
  }

  lemma WebSocketSimple()
    ensures AllSimple(WebSocket())
  {
    HttpVersionSimple();
    UpgradeSimple();
    ConnectionSimple();
  }

  lemma HttpVersionSimple()
    ensures Simple(WebSocket()[0])
  {
    SimpleOne("proxy_http_version", "1.1");
  }

  lemma UpgradeSimple()
    ensures Simple(WebSocket()[1])
  {
    SimpleTwo("proxy_set_header", "Upgrade", "$http_upgrade");
  }

  lemma ConnectionSimple()
    ensures Simple(WebSocket()[2])
  {
    SimpleTwo("proxy_set_header", "Connection", "\"upgrade\"");
  }

  lemma HostHeaderSimple()
    ensures AllSimple(HostHeader())
  {
    HostSimple();
    CacheBypassSimple();
  }

  lemma HostSimple()
    ensures Simple(HostHeader()[0])
  {
    SimpleTwo("proxy_set_header", "Host", "$host");
  }

  lemma CacheBypassSimple()
    ensures Simple(HostHeader()[1])
  {
    SimpleOne("proxy_cache_bypass", "$http_upgrade");
  }

  lemma ProxySimple()
    ensures AllSimple(Proxy())
  {
    ForwardSimple();
    ClientAddressSimple();
    WebSocketSimple();
    HostHeaderSimple();
    AllSimpleAppend(Forward(), ClientAddress());
    AllSimpleAppend(Forward() + ClientAddress(), WebSocket());
    AllSimpleAppend(Forward() + ClientAddress() + WebSocket(), HostHeader());
  }

  lemma TokenConcat(a: string, b: string)
    requires Token(a) && Token(b)
    ensures Token(a + b)
  {
    assert forall i | |a| <= i < |a + b| :: (a + b)[i] == b[i - |a|];
  }

  lemma ServerNameSimple(domain: string)
    requires Token(domain)
    ensures Simple(ServerName(domain))
  {
    var www := "www.";
    assert Token(www);
    TokenConcat(www, domain);
  }

  /** An indented line whose text does not end in `;` holds no directive. */
  lemma NoDirective(indent: string, t: string)
    requires Spaces(indent)
    requires t == [] || (t[0] != ' ' && t[|t| - 1] != ';')
    ensures ParseLine(indent + t) == None
  {
    DedentSpaces(indent, t);
  }

  lemma OpeningLines()
    ensures Directives(["", "server {"]) == []
  {
    var ls := ["", "server {"];
    NoDirective("", "");
    NoDirective("", "server {");
    assert "" + "server {" == "server {";
    assert ls[1..][1..] == [];
  }

  lemma ServerLines(domain: string)
    requires Token(domain)
    ensures Directives(["", Line(Indent8, ServerName(domain)), Indent8, Indent8 + "location / {"])
         == [ServerName(domain)]
  {
    var ls := ["", Line(Indent8, ServerName(domain)), Indent8, Indent8 + "location / {"];
    NoDirective("", "");
    ServerNameSimple(domain);
    ParseLineOf(Indent8, ServerName(domain));
    NoDirective(Indent8, "");
    assert Indent8 + "" == Indent8;
    NoDirective(Indent8, "location / {");
    assert Directives(ls[3..]) == [] by {
      assert ls[3..][1..] == [];
    }
    assert Directives(ls[2..]) == [] by {
      assert ls[2..][1..] == ls[3..];
    }
    assert Directives(ls[1..]) == [ServerName(domain)] by {
      assert ls[1..][1..] == ls[2..];
    }
  }

  lemma ClosingLines()
    ensures Directives([Indent8 + "}", "}", ""]) == []
  {
    var ls := [Indent8 + "}", "}", ""];
    NoDirective(Indent8, "}");
    NoDirective("", "}");
    assert "" + "}" == "}";
    NoDirective("", "");
    assert Directives(ls[2..]) == [] by {
      assert ls[2..][1..] == [];
    }
    assert Directives(ls[1..]) == [] by {
      assert ls[1..][1..] == ls[2..];
    }
  }

  lemma ListenLines()
    ensures Directives(DirectiveLines(Indent8, Listen())) == Listen()
  {
    ListenSimple();
    DirectivesOfLines(Indent8, Listen());
  }

  lemma ProxyLines()
    ensures Directives(DirectiveLines(Indent12, Proxy())) == Proxy()
  {
    ProxySimple();
    DirectivesOfLines(Indent12, Proxy());
  }

  lemma DirectivesOfParts(a: seq<string>, l: seq<string>, b: seq<string>, p: seq<string>, c: seq<string>,
                           ls: seq<Directive>, d: Directive, ps: seq<Directive>)
    requires Directives(a) == [] && Directives(l) == ls && Directives(b) == [d]
    requires Directives(p) == ps && Directives(c) == []
    ensures Directives(a + l + b + p + c) == ls + [d] + ps
  {
    DirectivesAppend(a, l);
    DirectivesAppend(a + l, b);
    DirectivesAppend(a + l + b, p);
    DirectivesAppend(a + l + b + p, c);
  }

  /** Reading the rendered site back yields exactly its directives, in order:
      the two `listen`s, `server_name`, and the proxy settings. */
  lemma SiteDirectives(domain: string)
    requires Token(domain)
    ensures Directives(Site(domain)) == Listen() + [ServerName(domain)] + Proxy()
  {
    OpeningLines();
    ListenLines();
    ServerLines(domain);
    ProxyLines();
    ClosingLines();
    DirectivesOfParts(
      ["", "server {"],
      DirectiveLines(Indent8, Listen()),
      ["", Line(Indent8, ServerName(domain)), Indent8, Indent8 + "location / {"],
      DirectiveLines(Indent12, Proxy()),
      [Indent8 + "}", "}", ""],
      Listen(), ServerName(domain), Proxy());
  }

  // ---------------------------------------------------------------------------
  // The site can be written by a heredoc

  /** A directive whose words are clean is written on a clean line, which
      ends in `;` and so is never `EOF`. */
  lemma LineClean(indent: string, d: Directive)
    requires Spaces(indent) && Clean(d.name) && forall i | 0 <= i < |d.args| :: Clean(d.args[i])
    ensures Clean(Line(indent, d)) && Line(indent, d) != "EOF"
  {
    var words := [d.name] + d.args;
    assert forall i | 0 <= i < |words| :: Clean(words[i]) by {
      forall i | 0 <= i < |words| ensures Clean(words[i]) {
        if i > 0 { assert words[i] == d.args[i - 1]; }
      }
    }
    JoinWithClean(words, ' ');
    assert Clean(indent);
    CleanAppend(indent, JoinWith(words, ' '));
    CleanAppend(indent + JoinWith(words, ' '), ";");
    var l := Line(indent, d);
    assert l[|l| - 1] == ';';
  }

  lemma DirectiveLinesClean(indent: string, ds: seq<Directive>)
    requires Spaces(indent) && AllSimple(ds)
    ensures HereDocBody(DirectiveLines(indent, ds))
  {
    forall i | 0 <= i < |ds| ensures Clean(Line(indent, ds[i])) && Line(indent, ds[i]) != "EOF" {
      var d := ds[i];
      assert Simple(d);
      assert forall k | 0 <= k < |d.args| :: Token(d.args[k]);
      LineClean(indent, d);
    }
  }

  lemma HereDocBodyOfParts(a: seq<string>, l: seq<string>, b: seq<string>, p: seq<string>, c: seq<string>)
    requires HereDocBody(a) && HereDocBody(l) && HereDocBody(b) && HereDocBody(p) && HereDocBody(c)
    ensures HereDocBody(a + l + b + p + c)
  {
    HereDocBodyAppend(a, l);
    HereDocBodyAppend(a + l, b);
    HereDocBodyAppend(a + l + b, p);
    HereDocBodyAppend(a + l + b + p, c);
  }

  lemma ServerLinesClean(domain: string)
    requires Clean(domain)
    ensures HereDocBody(["", Line(Indent8, ServerName(domain)), Indent8, Indent8 + "location / {"])
  {
    var www := "www.";
    assert Clean(www);
    CleanAppend(www, domain);
    LineClean(Indent8, ServerName(domain));
    var l := Indent8 + "location / {";
    assert Clean(l);
  }

  lemma FrameClean()
    ensures HereDocBody(["", "server {"]) && HereDocBody([Indent8 + "}", "}", ""])
  {
  }

  /** Every line of the site is clean and none of them is `EOF`, whenever
      the domain holds no newline and no single quote. */
  lemma SiteClean(domain: string)
    requires Clean(domain)
    ensures HereDocBody(Site(domain))
  {
    FrameClean();
    ListenSimple();
    DirectiveLinesClean(Indent8, Listen());
    ServerLinesClean(domain);
    ProxySimple();
    DirectiveLinesClean(Indent12, Proxy());
    HereDocBodyOfParts(
      ["", "server {"],
      DirectiveLines(Indent8, Listen()),
      ["", Line(Indent8, ServerName(domain)), Indent8, Indent8 + "location / {"],
      DirectiveLines(Indent12, Proxy()),
      [Indent8 + "}", "}", ""]);
  }
}
