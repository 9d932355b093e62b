/** The CounterStrikeSharp plugin: its fetch gate, its console commands
    `azlink_setup`, `azlink_status` and `azlink_fetch`, the report it sends
    and the way it runs the commands the website returns.

    The host runtime is passed in as a `Host` value, the HTTP exchanges as
    `Response` and `PingResponse` values, and `Server.ExecuteCommand` is the
    returned list of executed commands. */
module CounterStrikeSharp {
  import opened Text
  import opened Sequences
  import opened FetchGate
  import opened Protocol

  const ModuleVersion := "1.0.0"

  /** A player of `Utilities.GetPlayers()`: `PlayerName` and `SteamID`. */
  datatype Player = Player(name: string, steamId: ULong)

  /** The controller `Utilities.GetPlayerFromSteamId` finds: its
      `PlayerName` and its nullable `UserId`. */
  datatype Controller = Controller(name: string, userId: Option<int>)

  /** What the plugin reads from the host runtime. */
  datatype Host = Host(
    players: seq<Player>,                // Utilities.GetPlayers()
    maxPlayers: int,                     // Server.MaxPlayers
    apiVersion: string,                  // Api.GetVersionString()
    totalMemory: nat,                    // GC.GetTotalMemory(false), in bytes
    bySteamId: map<ULong, Controller>)   // Utilities.GetPlayerFromSteamId

  // ---------------------------------------------------------------------
  // The report
  // ---------------------------------------------------------------------

  function Entries(players: seq<Player>): seq<Entry>
  {
    seq(|players|, i requires 0 <= i < |players| => Entry(players[i].name, DecimalString(players[i].steamId)))
  }

  /** The report: platform, plugin version, online players, slot count and
      the full flag; a full report also carries the memory use in megabytes. */
  function GetServerData(host: Host, full: bool): (r: Payload)
    ensures r.Keys == ReportKeys + (if full then {"ram"} else {})
    ensures "ram" in r <==> full
    ensures r["full"] == JBool(full)
    ensures r["platform"] == PlatformJson("COUNTER_STRIKE_SHARP", "CounterStrikeSharp", host.apiVersion)
    ensures r["version"] == JString(ModuleVersion)
    ensures r["maxPlayers"] == JInt(host.maxPlayers)
    ensures r["players"].JArray? && |r["players"].items| == |host.players|
    ensures full ==> r["ram"] == JInt(Megabytes(host.totalMemory))
  {
    var data := map[
      "platform" := PlatformJson("COUNTER_STRIKE_SHARP", "CounterStrikeSharp", host.apiVersion),
      "version" := JString(ModuleVersion),
      "players" := JArray(EntriesJson(Entries(host.players))),
      "maxPlayers" := JInt(host.maxPlayers),
      "full" := JBool(full)];
    if full then data["ram" := JInt(Megabytes(host.totalMemory))] else data
  }

  /** The website reads back one `{name, uid}` entry per connected player, in
      order, and every uid parses back to that player's SteamID. */
  lemma ReportedPlayers(host: Host, full: bool)
    ensures ReadEntries(GetServerData(host, full)["players"].items) == Some(Entries(host.players))
    ensures forall i :: 0 <= i < |host.players| ==>
      Entries(host.players)[i].name == host.players[i].name &&
      ParseULong(Entries(host.players)[i].uid) == Some(host.players[i].steamId)
  {
    EntriesRoundTrip(Entries(host.players));
    forall i | 0 <= i < |host.players|
      ensures ParseULong(Entries(host.players)[i].uid) == Some(host.players[i].steamId)
    {
      ParseDecimal(host.players[i].steamId);
    }
  }

  // ---------------------------------------------------------------------
  // Running the website's commands
  // ---------------------------------------------------------------------

  /** The `Replace` chain of one command template: `{player}`, then `{id}`,
      then `{steam_id}`. */
  function Substitute(template: string, name: string, id: string, uid: string): string
  {
    Replace(Replace(Replace(template, "{player}", name), "{id}", id), "{steam_id}", uid)
  }

  /** The name of the controller found for the SteamID, or the website's
      name when the player is offline. */
  function TargetName(info: PendingCommand, steamId: ULong, online: map<ULong, Controller>): string
  {
    if steamId in online then online[steamId].name else info.userName
  }

  /** The controller's `UserId` in decimal, or the website's uid when the
      player is offline or has no `UserId`. */
  function TargetId(info: PendingCommand, steamId: ULong, online: map<ULong, Controller>): string
  {
    if steamId in online && online[steamId].userId.Some? then IntString(online[steamId].userId.value)
    else info.userId
  }

  /** The commands a list of templates yields for one target, one per
      template, in order. */
  function Commands(templates: seq<string>, name: string, id: string, uid: string): (r: seq<string>)
    ensures |r| == |templates|
    decreases |templates|
  {
    if templates == [] then []
    else Commands(templates[..|templates| - 1], name, id, uid) + [Substitute(templates[|templates| - 1], name, id, uid)]
  }

  /** One more template adds its command at the end. */
  lemma CommandsSnoc(templates: seq<string>, k: nat, name: string, id: string, uid: string)
    requires k < |templates|
    ensures Commands(templates[..k + 1], name, id, uid) == Commands(templates[..k], name, id, uid) + [Substitute(templates[k], name, id, uid)]
  {
    assert templates[..k + 1][..k] == templates[..k];
  }

  lemma {:induction false} CommandsAt(templates: seq<string>, name: string, id: string, uid: string, k: nat)
    requires k < |templates|
    ensures Commands(templates, name, id, uid)[k] == Substitute(templates[k], name, id, uid)
    decreases |templates|
  {
    if k < |templates| - 1 {
      CommandsAt(templates[..|templates| - 1], name, id, uid, k);
    }
  }

  /** The commands one pending entry yields. */
  function Expansion(info: PendingCommand, steamId: ULong, online: map<ULong, Controller>): seq<string>
  {
    Commands(info.values, TargetName(info, steamId, online), TargetId(info, steamId, online), info.userId)
  }

  /** Every uid of `cs` parses as a `ulong`. */
  predicate AllParse(cs: seq<PendingCommand>)
    decreases |cs|
  {
    cs == [] || (AllParse(cs[..|cs| - 1]) && ParseULong(cs[|cs| - 1].userId).Some?)
  }

  lemma {:induction false} AllParseAt(cs: seq<PendingCommand>, j: nat)
    requires AllParse(cs) && j < |cs|
    ensures ParseULong(cs[j].userId).Some?
    decreases |cs|
  {
    if j < |cs| - 1 {
      AllParseAt(cs[..|cs| - 1], j);
    }
  }

  /** The index of the first entry whose uid `ulong.Parse` rejects, or the
      number of entries when every uid parses. */
  function FirstUnparsable(cs: seq<PendingCommand>): (n: nat)
    ensures n <= |cs|
    decreases |cs|
  {
    if cs == [] then 0
    else
      var m := FirstUnparsable(cs[..|cs| - 1]);
      if m < |cs| - 1 || ParseULong(cs[|cs| - 1].userId).None? then m else |cs|
  }

  /** Every uid before `FirstUnparsable(cs)` parses and the one at it does
      not; it reaches the end exactly when every uid parses. */
  lemma {:induction false} FirstUnparsableSpec(cs: seq<PendingCommand>)
    ensures AllParse(cs[..FirstUnparsable(cs)])
    ensures FirstUnparsable(cs) < |cs| ==> ParseULong(cs[FirstUnparsable(cs)].userId).None?
    ensures FirstUnparsable(cs) == |cs| <==> AllParse(cs)
    decreases |cs|
  {
    if cs != [] {
      var init := cs[..|cs| - 1];
      var m := FirstUnparsable(init);
      FirstUnparsableSpec(init);
      assert cs[..m] == init[..m];
      assert cs[..|cs|][..|cs| - 1] == init;
      if m < |init| {
        assert cs[m] == init[m];
      }
    }
  }

  /** The commands of each entry, for a list whose every uid parses. */
  function Expansions(cs: seq<PendingCommand>, online: map<ULong, Controller>): (r: seq<seq<string>>)
    requires AllParse(cs)
    ensures |r| == |cs|
    decreases |cs|
  {
    if cs == [] then []
    else
      var last := cs[|cs| - 1];
      Expansions(cs[..|cs| - 1], online) + [Expansion(last, ParseULong(last.userId).value, online)]
  }

  /** Entry `j` contributes the commands of its own templates, filled for
      its own SteamID. */
  lemma {:induction false} ExpansionsAt(cs: seq<PendingCommand>, online: map<ULong, Controller>, j: nat)
    requires AllParse(cs) && j < |cs|
    ensures ParseULong(cs[j].userId).Some?
    ensures Expansions(cs, online)[j] == Expansion(cs[j], ParseULong(cs[j].userId).value, online)
    decreases |cs|
  {
    AllParseAt(cs, j);
    if j < |cs| - 1 {
      ExpansionsAt(cs[..|cs| - 1], online, j);
    }
  }

  lemma ExpansionsShape(cs: seq<PendingCommand>, online: map<ULong, Controller>)
    requires AllParse(cs)
    ensures |Expansions(cs, online)| == |Templates(cs)|
    ensures forall j :: 0 <= j < |cs| ==> |Expansions(cs, online)[j]| == |Templates(cs)[j]|
  {
    forall j | 0 <= j < |cs|
      ensures |Expansions(cs, online)[j]| == |Templates(cs)[j]|
    {
      ExpansionsAt(cs, online, j);
    }
  }

  /** The entries before position `i` all parse; the next one adds its own
      commands after theirs. */
  lemma ExpansionsSnoc(cs: seq<PendingCommand>, i: nat, steamId: ULong, online: map<ULong, Controller>)
    requires i < |cs| && AllParse(cs[..i]) && ParseULong(cs[i].userId) == Some(steamId)
    ensures AllParse(cs[..i + 1])
    ensures Flatten(Expansions(cs[..i + 1], online)) == Flatten(Expansions(cs[..i], online)) + Expansion(cs[i], steamId, online)
  {
    assert cs[..i + 1][..i] == cs[..i];
    var e := Expansion(cs[i], steamId, online);
    assert Expansions(cs[..i + 1], online) == Expansions(cs[..i], online) + [e];
    FlattenSnoc(Expansions(cs[..i], online), e);
  }

  /** The first unparsable uid is the first one that does not parse. */
  lemma FirstUnparsableAt(cs: seq<PendingCommand>, i: nat)
    requires i <= |cs| && AllParse(cs[..i])
    requires i < |cs| ==> ParseULong(cs[i].userId).None?
    ensures FirstUnparsable(cs) == i
  {
    FirstUnparsableSpec(cs);
    var n := FirstUnparsable(cs);
    if n < i {
      assert cs[..i][n] == cs[n];
      AllParseAt(cs[..i], n);
    } else if n > i {
      assert cs[..n][i] == cs[i];
      AllParseAt(cs[..n], i);
    }
  }

  /** The commands a dispatch runs: those of every entry before the first
      unparsable uid, in order. */
  function Executed(cs: seq<PendingCommand>, online: map<ULong, Controller>): seq<string>
  {
    FirstUnparsableSpec(cs);
    Flatten(Expansions(cs[..FirstUnparsable(cs)], online))
  }

  function Templates(cs: seq<PendingCommand>): seq<seq<string>>
  {
    seq(|cs|, j requires 0 <= j < |cs| => cs[j].values)
  }

  /** One command runs per template of every entry before the first
      unparsable uid; when every uid parses, one per template of the list. */
  lemma DispatchCount(cs: seq<PendingCommand>, online: map<ULong, Controller>)
    ensures |Executed(cs, online)| == SumLengths(Templates(cs[..FirstUnparsable(cs)]))
    ensures AllParse(cs) ==> |Executed(cs, online)| == SumLengths(Templates(cs))
  {
    FirstUnparsableSpec(cs);
    var done := cs[..FirstUnparsable(cs)];
    ExpansionsShape(done, online);
    FlattenLength(Expansions(done, online));
    SumLengthsSameShape(Expansions(done, online), Templates(done));
    if AllParse(cs) {
      assert cs[..|cs|] == cs;
      FirstUnparsableAt(cs, |cs|);
    }
  }

  /** When every uid parses, every entry's commands run. */
  lemma ExecutedAll(cs: seq<PendingCommand>, online: map<ULong, Controller>)
    requires AllParse(cs)
    ensures Executed(cs, online) == Flatten(Expansions(cs, online))
  {
    assert cs[..|cs|] == cs;
    FirstUnparsableAt(cs, |cs|);
  }

  /** The commands of entry `i` follow those of the entries before it. */
  lemma FlatExpansionsAt(cs: seq<PendingCommand>, online: map<ULong, Controller>, i: nat, k: nat)
    requires AllParse(cs)
    requires i < |cs| && k < |cs[i].values|
    ensures k < |Expansions(cs, online)[i]|
    ensures SumLengths(Templates(cs)[..i]) + k < |Flatten(Expansions(cs, online))|
    ensures Flatten(Expansions(cs, online))[SumLengths(Templates(cs)[..i]) + k] == Expansions(cs, online)[i][k]
  {
    ExpansionsShape(cs, online);
    FlattenAtShape(Expansions(cs, online), Templates(cs), i, k);
  }

  /** Template `k` of entry `i` runs right after every command of the entries
      before it, filled with the entry's target. */
  lemma DispatchOrder(cs: seq<PendingCommand>, online: map<ULong, Controller>, i: nat, k: nat)
    requires AllParse(cs)
    requires i < |cs| && k < |cs[i].values|
    ensures ParseULong(cs[i].userId).Some?
    ensures SumLengths(Templates(cs)[..i]) + k < |Executed(cs, online)|
    ensures Executed(cs, online)[SumLengths(Templates(cs)[..i]) + k] ==
      Substitute(cs[i].values[k], TargetName(cs[i], ParseULong(cs[i].userId).value, online),
        TargetId(cs[i], ParseULong(cs[i].userId).value, online), cs[i].userId)
  {
    ExecutedAll(cs, online);
    FlatExpansionsAt(cs, online, i, k);
    ExpansionsAt(cs, online, i);
    var steamId := ParseULong(cs[i].userId).value;
    CommandsAt(cs[i].values, TargetName(cs[i], steamId, online), TargetId(cs[i], steamId, online), cs[i].userId, k);
  }

  /** A template with none of the three placeholders runs verbatim. */
  lemma SubstituteVerbatim(t: string, name: string, id: string, uid: string)
    requires !Contains(t, "{player}") && !Contains(t, "{id}") && !Contains(t, "{steam_id}")
    ensures Substitute(t, name, id, uid) == t
  {
    ReplaceAbsent(t, "{player}", name);
    ReplaceAbsent(t, "{id}", id);
    ReplaceAbsent(t, "{steam_id}", uid);
  }

  /** When no template holds a placeholder, the commands run are the
      templates themselves, in list order and then template order. */
  lemma DispatchVerbatim(cs: seq<PendingCommand>, online: map<ULong, Controller>)
    requires AllParse(cs)
    requires forall j, k :: 0 <= j < |cs| && 0 <= k < |cs[j].values| ==>
      !Contains(cs[j].values[k], "{player}") && !Contains(cs[j].values[k], "{id}") && !Contains(cs[j].values[k], "{steam_id}")
    ensures Executed(cs, online) == Flatten(Templates(cs))
  {
    assert cs[..|cs|] == cs;
    FirstUnparsableAt(cs, |cs|);
    var xss := Expansions(cs, online);
    forall j | 0 <= j < |cs|
      ensures xss[j] == cs[j].values
    {
      ExpansionsAt(cs, online, j);
      var steamId := ParseULong(cs[j].userId).value;
      forall k | 0 <= k < |cs[j].values|
        ensures xss[j][k] == cs[j].values[k]
      {
        CommandsAt(cs[j].values, TargetName(cs[j], steamId, online), TargetId(cs[j], steamId, online), cs[j].userId, k);
        SubstituteVerbatim(cs[j].values[k], TargetName(cs[j], steamId, online), TargetId(cs[j], steamId, online), cs[j].userId);
      }
    }
    assert xss == Templates(cs);
  }

  /** A dispatch runs what a dispatch of the entries before the first
      unparsable uid runs, and every uid among those parses. */
  lemma ExecutedPrefix(cs: seq<PendingCommand>, online: map<ULong, Controller>)
    ensures AllParse(cs[..FirstUnparsable(cs)])
    ensures Executed(cs, online) == Executed(cs[..FirstUnparsable(cs)], online)
  {
    FirstUnparsableSpec(cs);
    var p := cs[..FirstUnparsable(cs)];
    assert p[..|p|] == p;
    FirstUnparsableAt(p, |p|);
  }

  /** The order of `DispatchOrder` holds for every entry before the first
      unparsable uid, whatever follows it. */
  lemma DispatchOrderBeforeFailure(cs: seq<PendingCommand>, online: map<ULong, Controller>, i: nat, k: nat)
    requires i < FirstUnparsable(cs) && k < |cs[i].values|
    ensures ParseULong(cs[i].userId).Some?
    ensures SumLengths(Templates(cs)[..i]) + k < |Executed(cs, online)|
    ensures Executed(cs, online)[SumLengths(Templates(cs)[..i]) + k] ==
      Substitute(cs[i].values[k], TargetName(cs[i], ParseULong(cs[i].userId).value, online),
        TargetId(cs[i], ParseULong(cs[i].userId).value, online), cs[i].userId)
  {
    ExecutedPrefix(cs, online);
    var p := cs[..FirstUnparsable(cs)];
    assert p[i] == cs[i];
    assert Templates(p)[..i] == Templates(cs)[..i];
    DispatchOrder(p, online, i, k);
  }

  /** Without placeholders, the commands run are the templates of the
      entries before the first unparsable uid, in order. */
  lemma DispatchVerbatimBeforeFailure(cs: seq<PendingCommand>, online: map<ULong, Controller>)
    requires forall j, k :: 0 <= j < |cs| && 0 <= k < |cs[j].values| ==>
      !Contains(cs[j].values[k], "{player}") && !Contains(cs[j].values[k], "{id}") && !Contains(cs[j].values[k], "{steam_id}")
    ensures Executed(cs, online) == Flatten(Templates(cs[..FirstUnparsable(cs)]))
  {
    ExecutedPrefix(cs, online);
    DispatchVerbatim(cs[..FirstUnparsable(cs)], online);
  }

  /** `{player}` in a template is replaced by the name, and the rest of the
      template is kept, when no opening brace appears elsewhere. */
  lemma SubstituteFillsName(a: string, b: string, name: string, id: string, uid: string)
    requires '{' !in a && '{' !in b && '{' !in name
    ensures Substitute(a + "{player}" + b, name, id, uid) == a + name + b
  {
    var s := a + "{player}" + b;
    forall i | 0 <= i < |a|
      ensures !OccursAt(s, "{player}", i)
    {
      assert s[i] == a[i];
    }
    ReplaceFirst(a, b, "{player}", name);
    AbsentLead(b, "{player}");
    ReplaceAbsent(b, "{player}", name);
    var t := a + name + b;
    assert '{' !in t;
    AbsentLead(t, "{id}");
    ReplaceAbsent(t, "{id}", id);
    AbsentLead(t, "{steam_id}");
    ReplaceAbsent(t, "{steam_id}", uid);
  }

  /** The placeholders are filled one after the other, so a name that itself
      spells a later placeholder is filled too: a player called `{steam_id}`
      turns `{player}` into the uid. */
  lemma NameIsRescanned(id: string, uid: string)
    requires '{' !in id
    ensures Substitute("{player}", "{steam_id}", id, uid) == uid
  {
    ReplaceFirst([], [], "{player}", "{steam_id}");
    assert [] + "{player}" + [] == "{player}";
    assert Replace("{player}", "{player}", "{steam_id}") == "{steam_id}";
    var s := "{steam_id}";
    assert s[..4] != "{id}" by {
      assert s[..4][1] != "{id}"[1];
    }
    assert s[1..] == "steam_id}";
    AbsentLead("steam_id}", "{id}");
    ReplaceAbsent("steam_id}", "{id}", id);
    assert Replace(s, "{id}", id) == s;
    ReplaceFirst([], [], "{steam_id}", uid);
    assert [] + "{steam_id}" + [] == "{steam_id}";
  }

  // ---------------------------------------------------------------------
  // The plugin
  // ---------------------------------------------------------------------

  /** What a report request ends in, for a given answer of the website. */
  function FetchOutcomeOf(response: Response, online: map<ULong, Controller>): FetchOutcome
  {
    match RouteFetch(response)
    case ToCallback(cs) => Dispatched(Executed(cs, online), AllParse(cs))
    case ToErrorHandler(code) => Rejected(code)
    case Discarded => Abandoned
  }

  class AzLink {
    var url: Option<string>        // Config.Url
    var siteKey: Option<string>    // Config.SiteKey
    var lastSent: int
    var lastFullSent: int

    /** Loading the plugin: both timestamps take the load time, then the
        parsed configuration is installed. */
    constructor(now: int, url: Option<string>, siteKey: Option<string>)
      ensures this.url == url && this.siteKey == siteKey
      ensures lastSent == now && lastFullSent == now
    {
      this.url := url;
      this.siteKey := siteKey;
      lastSent := now;
      lastFullSent := now;
    }

    function Timestamps(): Clock
      reads this
    {
      Clock(lastSent, lastFullSent)
    }

    /** `azlink_setup <url> <key>`; `argv[0]` is the command name. */
    method OnSetupCommand(argv: seq<string>, ping: PingResponse) returns (replies: seq<string>, saved: bool)
      modifies this`url, this`siteKey
      ensures |argv| < 3 ==> replies == [SetupHelp] && !saved && url == old(url) && siteKey == old(siteKey)
      ensures |argv| >= 3 ==> siteKey == Some(argv[2])
      ensures |argv| >= 3 ==>
        match RoutePing(ping)
        case ToCallback(_) => url == Some(argv[1]) && replies == [Linked] && saved
        case ToErrorHandler(code) => url == None && replies == [ErrorReply(code)] && !saved
        case Discarded => url == Some(argv[1]) && replies == [] && !saved
    {
      if |argv| < 3 {
        replies, saved := [SetupHelp], false;
        return;
      }
      url := Some(argv[1]);
      siteKey := Some(argv[2]);
      var threw, route := PingWebsite(ping);
      match route {
        case ToCallback(_) =>
          replies, saved := [Linked], true;
        case ToErrorHandler(code) =>
          replies, saved := [ErrorReply(code)], false;
          url := None;
        case Discarded =>
          replies, saved := [], false;
      }
    }

    /** `azlink_status`. `threw` is the exception `PingWebsite` raises when
        the URL is set but the site key is not. */
    method OnStatusCommand(ping: PingResponse) returns (replies: seq<string>, threw: bool)
      ensures url.None? ==> replies == [NotConfigured] && !threw
      ensures url.Some? ==> (threw <==> siteKey.None?)
      ensures url.Some? && siteKey.Some? ==> replies == PingReplies(RoutePing(ping), Connected)
      ensures threw ==> replies == []
    {
      if url.None? {
        replies, threw := [NotConfigured], false;
        return;
      }
      var route;
      threw, route := PingWebsite(ping);
      replies := if threw then [] else PingReplies(route, Connected);
    }

    /** `azlink_fetch`: a full report, sent whatever the timestamps say, and
        without touching them. */
    method OnFetchCommand(host: Host, response: Response) returns (run: Option<FetchRun>, replies: seq<string>)
      ensures url.None? ==> run == None && replies == [NotConfigured]
      ensures url.Some? ==> run == Some(FetchRun(GetServerData(host, true), FetchOutcomeOf(response, host.bySteamId)))
      ensures url.Some? ==> replies == FetchReplies(FetchOutcomeOf(response, host.bySteamId))
    {
      if url.None? {
        run, replies := None, [NotConfigured];
        return;
      }
      var r := RunFetch(host, true, response);
      run, replies := Some(r), FetchReplies(r.outcome);
    }

    /** One timer tick. */
    method TryFetch(now: int, minute: Minute, host: Host, response: Response) returns (req: Request, run: Option<FetchRun>)
      modifies this`lastSent, this`lastFullSent
      ensures Gate(Timestamps(), req) == Step(old(Timestamps()), Tick(now, minute, url.Some? && siteKey.Some?))
      ensures req.NoRequest? <==> url.None? || siteKey.None? || now - old(lastSent) < PollFloor
      ensures req.NoRequest? ==> lastSent == old(lastSent) && lastFullSent == old(lastFullSent) && run == None
      ensures req.Send? ==> lastSent == now
      ensures req.Send? ==> (req.full <==> minute % FullPeriodMinutes == 0 && now - old(lastFullSent) >= FullInterval)
      ensures lastFullSent == if req == Send(true) then now else old(lastFullSent)
      ensures req.Send? ==> run == Some(FetchRun(GetServerData(host, req.full), FetchOutcomeOf(response, host.bySteamId)))
    {
      if url.None? || siteKey.None? {
        req, run := NoRequest, None;
        return;
      }
      if now - lastSent < PollFloor {
        req, run := NoRequest, None;
        return;
      }
      lastSent := now;
      var full := minute % FullPeriodMinutes == 0 && now - lastFullSent >= FullInterval;
      if full {
        lastFullSent := now;
      }
      req := Send(full);
      var r := RunFetch(host, full, response);
      run := Some(r);
    }

    /** Builds the report and sends it; on a 2xx answer whose body parses,
        runs the commands it holds. */
    method RunFetch(host: Host, full: bool, response: Response) returns (run: FetchRun)
      ensures run.payload == GetServerData(host, full)
      ensures run.outcome == FetchOutcomeOf(response, host.bySteamId)
    {
      var data := GetServerData(host, full);
      match RouteFetch(response) {
        case ToCallback(cs) =>
          var executed, completed := DispatchCommands(cs, host.bySteamId);
          run := FetchRun(data, Dispatched(executed, completed));
        case ToErrorHandler(code) =>
          run := FetchRun(data, Rejected(code));
        case Discarded =>
          run := FetchRun(data, Abandoned);
      }
    }

    /** The connectivity check; it throws before any request when the URL or
        the site key is missing. */
    method PingWebsite(ping: PingResponse) returns (threw: bool, route: Route<()>)
      ensures threw <==> url.None? || siteKey.None?
      ensures threw ==> route == Discarded
      ensures !threw ==> route == RoutePing(ping)
    {
      if url.None? || siteKey.None? {
        threw, route := true, Discarded;
        return;
      }
      threw, route := false, RoutePing(ping);
    }

    /** Runs the commands of every entry in list order and then template
        order; an uid `ulong.Parse` rejects stops the dispatch there. */
    method DispatchCommands(commands: seq<PendingCommand>, online: map<ULong, Controller>)
      returns (executed: seq<string>, completed: bool)
      ensures executed == Executed(commands, online)
      ensures completed <==> AllParse(commands)
      ensures commands == [] ==> executed == [] && completed
    {
      executed := [];
      if |commands| == 0 {
        completed := true;
        return;
      }
      var i := 0;
      while i < |commands|
        invariant 0 <= i <= |commands|
        invariant AllParse(commands[..i])
        invariant executed == Flatten(Expansions(commands[..i], online))
      {
        var info := commands[i];
        var parsed := ParseULong(info.userId);
        if parsed.None? {
          FirstUnparsableAt(commands, i);
          FirstUnparsableSpec(commands);
          completed := false;
          return;
        }
        var steamId := parsed.value;
        var name := TargetName(info, steamId, online);
        var id := TargetId(info, steamId, online);
        var cmds := ExecuteTemplates(info.values, name, id, info.userId);
        assert cmds == Expansion(info, steamId, online);
        ExpansionsSnoc(commands, i, steamId, online);
        executed := executed + cmds;
        i := i + 1;
      }
      assert commands[..i] == commands;
      FirstUnparsableAt(commands, i);
      completed := true;
    }

    /** The inner loop of the dispatch: every template of one entry, filled
        with the entry's target, in template order. */
    method ExecuteTemplates(templates: seq<string>, name: string, id: string, uid: string) returns (cmds: seq<string>)
      ensures cmds == Commands(templates, name, id, uid)
    {
      cmds := [];
      var k := 0;
      while k < |templates|
        invariant 0 <= k <= |templates|
        invariant cmds == Commands(templates[..k], name, id, uid)
      {
        CommandsSnoc(templates, k, name, id, uid);
        cmds := cmds + [Substitute(templates[k], name, id, uid)];
        k := k + 1;
      }
      assert templates[..k] == templates;
    }
  }
}
