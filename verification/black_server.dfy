/**
  `black_server.py`: switching a deployed site to its black page. The file
  repeats `get_content`, `get_filepath`, `edit_config`, `run_commands` and
  `upload_server` of `server.py`; those are modelled once, in `Server` and
  `Render`. What is its own is `black_server_control`: rewrite the site's
  configuration with the black-list link, then restart the application.
*/
module BlackServer {
  import opened Wrappers
  import opened Text
  import opened Remote
  import opened Render
  import opened Server

  /** `project_start_commands` of this file: a single restart. */
  const RestartCommands := ["sudo systemctl restart flask"]

  /** The data written: the domain, an empty black page and the link list. */
  function BlackData(domain: string, links: string): SiteData {
    SiteData(Some(domain), Some(""), Some(links))
  }

  /** The operations of `black_server_control(domain, links, …)`. */
  function BlackControlOps(o: Oracle, domain: string, links: string): seq<Op> {
    EditOps(o, "config", BlackData(domain, links)) + Batch(o, RestartCommands)
  }

  method BlackServerControl(h: Host, domain: string, links: string)
    modifies h
    ensures h.trace == old(h.trace) + BlackControlOps(h.oracle, domain, links)
  {
    EditConfig(h, "config", BlackData(domain, links));
    RunCommands(h, RestartCommands);
  }

  // ---------------------------------------------------------------------------
  // Properties

  /** Exactly two commands can go out, each over a session of its own: the
      configuration file is rewritten (the virtual host is left alone) when
      that session opens, then the application restarts when its session
      opens, whatever either replies. */
  lemma BlackControlIssues(o: Oracle, domain: string, links: string)
    ensures BlackControlOps(o, domain, links)
         == (if o.Opens(EditSession("config")) then [Exec(EditCommand(Config, BlackData(domain, links)))] else [])
            + (if o.Opens(RunSession(RestartCommands)) then [Exec("sudo systemctl restart flask")] else [])
  {
    if o.Opens(EditSession("config")) {
      EditOpsNamed(o, "config", Config, BlackData(domain, links));
    }
    assert RestartCommands[1..] == [];
    assert IssueUntilRaised(o, RestartCommands) == [Exec(RestartCommands[0])];
  }

  /** The rewritten configuration reads back with `SITE` the domain, `BLACK`
      empty and `BLACK_LIST` the links, for values that fit on one line. */
  lemma BlackConfig(domain: string, links: string)
    requires Plain(domain) && Plain(links)
    ensures GetContent("config", BlackData(domain, links)).Some?
    ensures var ls := Lines(GetContent("config", BlackData(domain, links)).value);
      && Setting(ls, "SITE") == Some(domain)
      && Setting(ls, "BLACK") == Some("")
      && Setting(ls, "BLACK_LIST") == Some(links)
  {
    assert Plain("") by {
      StripTrimmed("");
    }
    ConfigRoundTrip(BlackData(domain, links));
  }
}
