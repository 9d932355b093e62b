/** The Oxide plugin: its fetch gate, its console commands `azlink.setup`,
    `azlink.status` and `azlink.fetch`, the report it sends and the way it
    runs the commands the website returns.

    The host runtime is passed in as an `OxideHost` value, the HTTP
    exchanges as `Response` and `PingResponse` values, and `server.Command`
    is the returned list of executed commands. */
module Oxide {
  import opened Text
  import opened Sequences
  import opened FetchGate
  import opened Protocol

  const AzLinkVersion := "1.0.0"

  /** A connected `IPlayer`: its `Name` and its string `Id`. */
  datatype OxidePlayer = OxidePlayer(name: string, id: string)

  /** What the plugin reads from the host runtime. */
  datatype OxideHost = OxideHost(
    connected: seq<OxidePlayer>,       // players.Connected
    maxPlayers: int,                   // server.MaxPlayers
    game: string,                      // game
    serverVersion: string,             // server.Version
    totalMemory: nat,                  // GC.GetTotalMemory(false), in bytes
    byId: map<string, string>)         // players.FindPlayerById, to the player's Name

  // ---------------------------------------------------------------------
  // The report
  // ---------------------------------------------------------------------

  function Entries(connected: seq<OxidePlayer>): seq<Entry>
  {
    seq(|connected|, i requires 0 <= i < |connected| => Entry(connected[i].name, connected[i].id))
  }

  /** The report: platform, plugin version, online players, slot count and
      the full flag; a full report also carries the memory use in megabytes. */
  function GetServerData(host: OxideHost, includeFullData: bool): (r: Payload)
    ensures r.Keys == ReportKeys + (if includeFullData then {"ram"} else {})
    ensures "ram" in r <==> includeFullData
    ensures r["full"] == JBool(includeFullData)
    ensures r["platform"] == PlatformJson("OXIDE", "Oxide - " + host.game, host.serverVersion)
    ensures r["version"] == JString(AzLinkVersion)
    ensures r["maxPlayers"] == JInt(host.maxPlayers)
    ensures r["players"].JArray? && |r["players"].items| == |host.connected|
    ensures includeFullData ==> r["ram"] == JInt(Megabytes(host.totalMemory))
  {
    var data := map[
      "platform" := PlatformJson("OXIDE", "Oxide - " + host.game, host.serverVersion),
      "version" := JString(AzLinkVersion),
      "players" := JArray(EntriesJson(Entries(host.connected))),
      "maxPlayers" := JInt(host.maxPlayers),
      "full" := JBool(includeFullData)];
    if includeFullData then data["ram" := JInt(Megabytes(host.totalMemory))] else data
  }

  /** The website reads back one `{name, uid}` entry per connected player, in
      order, holding that player's name and id. */
  lemma ReportedPlayers(host: OxideHost, includeFullData: bool)
    ensures ReadEntries(GetServerData(host, includeFullData)["players"].items) == Some(Entries(host.connected))
    ensures |Entries(host.connected)| == |host.connected|
    ensures forall i :: 0 <= i < |host.connected| ==>
      Entries(host.connected)[i] == Entry(host.connected[i].name, host.connected[i].id)
  {
    EntriesRoundTrip(Entries(host.connected));
  }

  // ---------------------------------------------------------------------
  // Running the website's commands
  // ---------------------------------------------------------------------

  /** The `Replace` chain of one command template: `{player}`, then
      `{steam_id}`. */
  function Substitute(template: string, name: string, uid: string): string
  {
    Replace(Replace(template, "{player}", name), "{steam_id}", uid)
  }

  /** The name of the player `FindPlayerById` finds, or the website's name
      when no player has that id. */
  function TargetName(info: PendingCommand, byId: map<string, string>): string
  {
    if info.userId in byId then byId[info.userId] else info.userName
  }

  /** The commands a list of templates yields for one target, one per
      template, in order. */
  function Commands(templates: seq<string>, name: string, uid: string): (r: seq<string>)
    ensures |r| == |templates|
    decreases |templates|
  {
    if templates == [] then []
    else Commands(templates[..|templates| - 1], name, uid) + [Substitute(templates[|templates| - 1], name, uid)]
  }

  /** One more template adds its command at the end. */
  lemma CommandsSnoc(templates: seq<string>, k: nat, name: string, uid: string)
    requires k < |templates|
    ensures Commands(templates[..k + 1], name, uid) == Commands(templates[..k], name, uid) + [Substitute(templates[k], name, uid)]
  {
    assert templates[..k + 1][..k] == templates[..k];
  }

  lemma {:induction false} CommandsAt(templates: seq<string>, name: string, uid: string, k: nat)
    requires k < |templates|
    ensures Commands(templates, name, uid)[k] == Substitute(templates[k], name, uid)
    decreases |templates|
  {
    if k < |templates| - 1 {
      CommandsAt(templates[..|templates| - 1], name, uid, k);
    }
  }

  /** The commands one pending entry yields. */
  function Expansion(info: PendingCommand, byId: map<string, string>): seq<string>
  {
    Commands(info.values, TargetName(info, byId), info.userId)
  }

  function Expansions(cs: seq<PendingCommand>, byId: map<string, string>): seq<seq<string>>
  {
    seq(|cs|, j requires 0 <= j < |cs| => Expansion(cs[j], byId))
  }

  function Templates(cs: seq<PendingCommand>): seq<seq<string>>
  {
    seq(|cs|, j requires 0 <= j < |cs| => cs[j].values)
  }

  /** The commands a dispatch runs: those of every entry, in order. */
  function Executed(cs: seq<PendingCommand>, byId: map<string, string>): seq<string>
  {
    Flatten(Expansions(cs, byId))
  }

  lemma ExpansionsSnoc(cs: seq<PendingCommand>, i: nat, byId: map<string, string>)
    requires i < |cs|
    ensures Executed(cs[..i + 1], byId) == Executed(cs[..i], byId) + Expansion(cs[i], byId)
  {
    assert cs[..i + 1] == cs[..i] + [cs[i]];
    assert Expansions(cs[..i + 1], byId) == Expansions(cs[..i], byId) + [Expansion(cs[i], byId)];
    FlattenSnoc(Expansions(cs[..i], byId), Expansion(cs[i], byId));
  }

  lemma ExpansionsShape(cs: seq<PendingCommand>, byId: map<string, string>)
    ensures |Expansions(cs, byId)| == |Templates(cs)|
    ensures forall j :: 0 <= j < |cs| ==> |Expansions(cs, byId)[j]| == |Templates(cs)[j]|
  {
  }

  /** One command runs per template; none when the list is empty. */
  lemma DispatchCount(cs: seq<PendingCommand>, byId: map<string, string>)
    ensures |Executed(cs, byId)| == SumLengths(Templates(cs))
    ensures cs == [] ==> Executed(cs, byId) == []
  {
    FlattenLength(Expansions(cs, byId));
    SumLengthsSameShape(Expansions(cs, byId), Templates(cs));
  }

  /** Template `k` of entry `i` runs right after every command of the entries
      before it, filled with the entry's target. */
  lemma DispatchOrder(cs: seq<PendingCommand>, byId: map<string, string>, i: nat, k: nat)
    requires i < |cs| && k < |cs[i].values|
    ensures SumLengths(Templates(cs)[..i]) + k < |Executed(cs, byId)|
    ensures Executed(cs, byId)[SumLengths(Templates(cs)[..i]) + k] ==
      Substitute(cs[i].values[k], TargetName(cs[i], byId), cs[i].userId)
  {
    var xss := Expansions(cs, byId);
    assert Executed(cs, byId) == Flatten(xss);
    ExpansionsShape(cs, byId);
    FlattenAt(xss, i, k);
    SumLengthsSameShape(xss[..i], Templates(cs)[..i]);
    CommandsAt(cs[i].values, TargetName(cs[i], byId), cs[i].userId, k);
  }

  /** A template with neither placeholder runs verbatim. */
  lemma SubstituteVerbatim(t: string, name: string, uid: string)
    requires !Contains(t, "{player}") && !Contains(t, "{steam_id}")
    ensures Substitute(t, name, uid) == t
  {
    ReplaceAbsent(t, "{player}", name);
    ReplaceAbsent(t, "{steam_id}", uid);
  }

  /** When no template holds a placeholder, the commands run are the
      templates themselves, in list order and then template order. */
  lemma DispatchVerbatim(cs: seq<PendingCommand>, byId: map<string, string>)
    requires forall j, k :: 0 <= j < |cs| && 0 <= k < |cs[j].values| ==>
      !Contains(cs[j].values[k], "{player}") && !Contains(cs[j].values[k], "{steam_id}")
    ensures Executed(cs, byId) == Flatten(Templates(cs))
  {
    var xss := Expansions(cs, byId);
    forall j | 0 <= j < |cs|
      ensures xss[j] == cs[j].values
    {
      forall k | 0 <= k < |cs[j].values|
        ensures xss[j][k] == cs[j].values[k]
      {
        CommandsAt(cs[j].values, TargetName(cs[j], byId), cs[j].userId, k);
        SubstituteVerbatim(cs[j].values[k], TargetName(cs[j], byId), cs[j].userId);
      }
    }
    assert xss == Templates(cs);
  }

  /** In `a + m + b`, where `m` is the only text holding an opening brace and
      holds it first, a brace-led pattern whose second character differs
      from that of `m` does not occur. */
  lemma OnlyMiddleBrace(a: string, m: string, b: string, pat: string)
    requires '{' !in a && '{' !in b && |m| >= 2 && m[0] == '{' && '{' !in m[1..]
    requires |pat| >= 2 && pat[0] == '{' && pat[1] != m[1]
    ensures !Contains(a + m + b, pat)
  {
    var s := a + m + b;
    forall i | 0 <= i <= |s|
      ensures !OccursAt(s, pat, i)
    {
      if i + |pat| <= |s| {
        var w := s[i..i + |pat|];
        assert w[0] == s[i] && w[1] == s[i + 1];
        if i == |a| {
          assert s[i + 1] == m[1];
        } else if i < |a| {
          assert s[i] == a[i];
        } else if i < |a| + |m| {
          assert s[i] == m[1..][i - |a| - 1];
        } else {
          assert s[i] == b[i - |a| - |m|];
        }
      }
    }
  }

  /** `{player}` in a template is replaced by the name, and the rest of the
      template is kept, when no opening brace appears elsewhere. */
  lemma SubstituteFillsName(a: string, b: string, name: string, uid: string)
    requires '{' !in a && '{' !in b && '{' !in name
    ensures Substitute(a + "{player}" + b, name, uid) == a + name + b
  {
    var s := a + "{player}" + b;
    forall i | 0 <= i < |a|
      ensures !OccursAt(s, "{player}", i)
    {
      assert s[i] == a[i];
    }
    ReplaceFirst(a, b, "{player}", name);
    AbsentLead(b, "{player}");
    ReplaceAbsent(b, "{player}", name);
    var t := a + name + b;
    assert '{' !in t;
    AbsentLead(t, "{steam_id}");
    ReplaceAbsent(t, "{steam_id}", uid);
  }

  /** Unlike the CounterStrikeSharp plugin, this one has no `{id}`
      placeholder: a template whose only brace opens `{id}` runs verbatim. */
  lemma IdLeftVerbatim(a: string, b: string, name: string, uid: string)
    requires '{' !in a && '{' !in b
    ensures Substitute(a + "{id}" + b, name, uid) == a + "{id}" + b
  {
    var s := a + "{id}" + b;
    assert "{id}"[1..] == "id}";
    OnlyMiddleBrace(a, "{id}", b, "{player}");
    OnlyMiddleBrace(a, "{id}", b, "{steam_id}");
    SubstituteVerbatim(s, name, uid);
  }

  // ---------------------------------------------------------------------
  // The plugin
  // ---------------------------------------------------------------------

  /** What a report request ends in, for a given answer of the website:
      the dispatch cannot stop early here. */
  function FetchOutcomeOf(response: Response, byId: map<string, string>): FetchOutcome
  {
    match RouteFetch(response)
    case ToCallback(cs) => Dispatched(Executed(cs, byId), true)
    case ToErrorHandler(code) => Rejected(code)
    case Discarded => Abandoned
  }

  class AzLink {
    var url: Option<string>        // Config["URL"]
    var siteKey: Option<string>    // Config["SiteKey"]
    var lastSent: int
    var lastFullSent: int

    /** Loading the plugin: both timestamps take the load time and the
        configuration is read from file (`LoadDefaultConfig` leaves both
        entries null). */
    constructor(now: int, url: Option<string>, siteKey: Option<string>)
      ensures this.url == url && this.siteKey == siteKey
      ensures lastSent == now && lastFullSent == now
    {
      this.url := url;
      this.siteKey := siteKey;
      lastSent := now;
      lastFullSent := now;
    }

    function Timestamps(): Clock
      reads this
    {
      Clock(lastSent, lastFullSent)
    }

    /** `azlink.setup <url> <key>`. The configuration is written before the
        ping and stays written whatever the ping answers. */
    method SetupCommand(args: seq<string>, ping: PingResponse) returns (replies: seq<string>, saved: bool)
      modifies this`url, this`siteKey
      ensures |args| < 2 ==> replies == [SetupHelp] && !saved && url == old(url) && siteKey == old(siteKey)
      ensures |args| >= 2 ==> url == Some(args[0]) && siteKey == Some(args[1])
      ensures |args| >= 2 ==> replies == PingReplies(RoutePing(ping), Linked)
      ensures |args| >= 2 ==> (saved <==> RoutePing(ping).ToCallback?)
    {
      if |args| < 2 {
        replies, saved := [SetupHelp], false;
        return;
      }
      url := Some(args[0]);
      siteKey := Some(args[1]);
      var threw, route := PingWebsite(ping);
      replies := PingReplies(route, Linked);
      saved := route.ToCallback?;
    }

    /** `azlink.status`. `threw` is the exception `PingWebsite` raises when
        the URL is set but the site key is not. */
    method StatusCommand(ping: PingResponse) returns (replies: seq<string>, threw: bool)
      ensures url.None? ==> replies == [NotConfigured] && !threw
      ensures url.Some? ==> (threw <==> siteKey.None?)
      ensures url.Some? && siteKey.Some? ==> replies == PingReplies(RoutePing(ping), Connected)
      ensures threw ==> replies == []
    {
      if url.None? {
        replies, threw := [NotConfigured], false;
        return;
      }
      var route;
      threw, route := PingWebsite(ping);
      replies := if threw then [] else PingReplies(route, Connected);
    }

    /** `azlink.fetch`: a full report, sent whatever the timestamps say, and
        without touching them. */
    method FetchCommand(host: OxideHost, response: Response) returns (run: Option<FetchRun>, replies: seq<string>)
      ensures url.None? ==> run == None && replies == [NotConfigured]
      ensures url.Some? ==> run == Some(FetchRun(GetServerData(host, true), FetchOutcomeOf(response, host.byId)))
      ensures url.Some? ==> replies == FetchReplies(FetchOutcomeOf(response, host.byId))
    {
      if url.None? {
        run, replies := None, [NotConfigured];
        return;
      }
      var r := RunFetch(host, true, response);
      run, replies := Some(r), FetchReplies(r.outcome);
    }

    /** One timer tick. */
    method TryFetch(now: int, minute: Minute, host: OxideHost, response: Response) returns (req: Request, run: Option<FetchRun>)
      modifies this`lastSent, this`lastFullSent
      ensures Gate(Timestamps(), req) == Step(old(Timestamps()), Tick(now, minute, url.Some? && siteKey.Some?))
      ensures req.NoRequest? <==> url.None? || siteKey.None? || now - old(lastSent) < PollFloor
      ensures req.NoRequest? ==> lastSent == old(lastSent) && lastFullSent == old(lastFullSent) && run == None
      ensures req.Send? ==> lastSent == now
      ensures req.Send? ==> (req.full <==> minute % FullPeriodMinutes == 0 && now - old(lastFullSent) >= FullInterval)
      ensures lastFullSent == if req == Send(true) then now else old(lastFullSent)
      ensures req.Send? ==> run == Some(FetchRun(GetServerData(host, req.full), FetchOutcomeOf(response, host.byId)))
    {
      if url.None? || siteKey.None? {
        req, run := NoRequest, None;
        return;
      }
      if now - lastSent < PollFloor {
        req, run := NoRequest, None;
        return;
      }
      lastSent := now;
      var full := minute % FullPeriodMinutes == 0 && now - lastFullSent >= FullInterval;
      if full {
        lastFullSent := now;
      }
      req := Send(full);
      var r := RunFetch(host, full, response);
      run := Some(r);
    }

    /** Builds the report and sends it; a code outside 200..299 goes to the
        error handler, any other code to the callback that runs the commands
        of the parsed body. */
    method RunFetch(host: OxideHost, sendFullData: bool, response: Response) returns (run: FetchRun)
      ensures run.payload == GetServerData(host, sendFullData)
      ensures run.outcome == FetchOutcomeOf(response, host.byId)
    {
      var body := GetServerData(host, sendFullData);
      match response {
        case Unreachable =>
          run := FetchRun(body, Abandoned);
        case Response(code, parsed) =>
          if code < 200 || code >= 300 {
            run := FetchRun(body, Rejected(code));
          } else if parsed.None? {
            run := FetchRun(body, Abandoned);
          } else {
            var executed := DispatchCommands(parsed.value, host.byId);
            run := FetchRun(body, Dispatched(executed, true));
          }
      }
    }

    /** The connectivity check; it throws before any request when the URL or
        the site key is missing. */
    method PingWebsite(ping: PingResponse) returns (threw: bool, route: Route<()>)
      ensures threw <==> url.None? || siteKey.None?
      ensures threw ==> route == Discarded
      ensures !threw ==> route == RoutePing(ping)
    {
      if url.None? || siteKey.None? {
        threw, route := true, Discarded;
        return;
      }
      match ping {
        case PingUnreachable =>
          threw, route := false, Discarded;
        case PingResponse(code) =>
          threw := false;
          route := if code < 200 || code >= 300 then ToErrorHandler(code) else ToCallback(());
      }
    }

    /** Runs the commands of every entry in list order and then template
        order. */
    method DispatchCommands(commands: seq<PendingCommand>, byId: map<string, string>) returns (executed: seq<string>)
      ensures executed == Executed(commands, byId)
      ensures commands == [] ==> executed == []
    {
      executed := [];
      if |commands| == 0 {
        return;
      }
      var i := 0;
      while i < |commands|
        invariant 0 <= i <= |commands|
        invariant executed == Executed(commands[..i], byId)
      {
        var info := commands[i];
        var name := if info.userId in byId then byId[info.userId] else info.userName;
        var cmds := ExecuteTemplates(info.values, name, info.userId);
        executed := executed + cmds;
        ExpansionsSnoc(commands, i, byId);
        i := i + 1;
      }
      assert commands[..i] == commands;
    }

    /** The inner loop of the dispatch: every template of one entry, filled
        with the entry's target, in template order. */
    method ExecuteTemplates(templates: seq<string>, name: string, uid: string) returns (cmds: seq<string>)
      ensures cmds == Commands(templates, name, uid)
    {
      cmds := [];
      var k := 0;
      while k < |templates|
        invariant 0 <= k <= |templates|
        invariant cmds == Commands(templates[..k], name, uid)
      {
        CommandsSnoc(templates, k, name, uid);
        cmds := cmds + [Substitute(templates[k], name, uid)];
        k := k + 1;
      }
      assert templates[..k] == templates;
    }
  }
}
