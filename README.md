# AzLink plugins: a Dafny model

AzLink links an Azuriom website with a game server. It ships as two near-identical C# plugins, one for CounterStrikeSharp and one for Oxide. On a repeating timer each plugin posts a report of the server to the website: its platform, its online players, its slot count and, now and then, its memory use. The website answers with a list of pending commands, and the plugin fills in each template with the target player and runs it on the server console. Three console commands let an operator link the server (`setup`), check the link (`status`) and force a report (`fetch`).

This project models the logic of both plugins and proves properties of it:

- **The fetch gate** (`gate.dfy`, module `FetchGate`). A tick sends nothing unless the URL and the site key are set. It also sends nothing until 15 s have passed since the previous timer request, or since loading; a manual fetch does not count. A request is full only on a minute divisible by 15, and only when at least 60 s have passed since the previous full timer request, or since loading. Over any sequence of ticks, timer requests are therefore at least 15 s apart, full requests at least 60 s apart, and every full request falls on a quarter-hour minute.
- **The .NET string operations the plugins rely on** (`text.dfy`, module `Text`):
  - `String.Replace`: ordinal, non-overlapping, left to right, never rescanning inserted text.
  - `ToString` of integers.
  - `ulong.Parse`: white space, sign, digits, overflow.
- **The protocol** (`protocol.dfy`, module `Protocol`):
  - The pending-command record.
  - The split of status codes into success callback and error handler.
  - The JSON shape of the report.
  - The console replies.
- **Each plugin** (`counterstrikesharp.dfy`, `oxide.dfy`). A class `AzLink` holds the configuration and the two timestamps. Its methods are:
  - the console commands;
  - `TryFetch`, proved against `FetchGate.Step`;
  - `RunFetch` and `PingWebsite`;
  - the nested dispatch loops, proved against a specification function `Executed`;
  - `GetServerData`.
- **Dispatch sequence lemmas** (`sequences.dfy`, module `Sequences`): the concatenation of per-entry command lists the dispatch loops build.

Differences between the two plugins that the model keeps:

- CounterStrikeSharp fills `{player}`, `{id}` and `{steam_id}`. Oxide fills only `{player}` and `{steam_id}` and leaves `{id}` as written.
- CounterStrikeSharp parses every uid with `ulong.Parse` to look the player up. A uid that does not parse stops the dispatch at that entry, and the manual fetch then gives no "fetched" reply. Oxide looks players up by the string uid and always completes for entries without nulls.
- CounterStrikeSharp's setup takes the URL and the key from arguments 1 and 2 of the command line (argument 0 is the command name) and clears the URL when the ping gets an answer outside 200..299; a ping that ends in an exception is only logged and leaves the URL set. Oxide's setup takes them from `args[0]` and `args[1]` and keeps both whatever the ping answers.
- CounterStrikeSharp tests `IsSuccessStatusCode`, Oxide tests `code is < 200 or >= 300`; both split at 200..299.

Inputs the plugins read from their host are parameters:

- The clock: whole seconds plus the minute of the hour.
- The connected players, the player lookup, the slot count, the versions and `GC.GetTotalMemory`.
- The HTTP answers: `Response` and `PingResponse`.

`Server.ExecuteCommand` and `server.Command` become the returned list of executed commands. Sending the report is the returned `FetchRun`: the payload and what became of it.

## Model

| member | source | states |
|---|---|---|
| Text.Replace | AzLink-CounterStrikeSharp/AzLink.cs:214-216 | .NET ordinal `String.Replace`: every occurrence of the pattern, found left to right and never overlapping, is replaced, and inserted text is not scanned again; `ReplaceAbsent`, `ReplaceFirst` and `ReplaceSkip` state this |
| Text.ReplaceAbsent | AzLink-CounterStrikeSharp/AzLink.cs:214-216 | `String.Replace` leaves a string in which the pattern does not occur unchanged |
| Text.ReplaceFirst | AzLink-CounterStrikeSharp/AzLink.cs:214-216 | the first occurrence of the pattern is replaced and scanning resumes after it |
| Text.ReplaceSkip | AzLink-Oxide/AzLink.cs:164-165 | a prefix in which no occurrence starts is copied unchanged |
| Text.ReplaceIdentity | AzLink-Oxide/AzLink.cs:164-165 | replacing a pattern by itself is the identity: inserted text is never rescanned |
| Text.DecimalString | AzLink-CounterStrikeSharp/AzLink.cs:231 | `ulong.ToString()` is a non-empty string of digits with no leading zero |
| Text.DecimalValue | AzLink-CounterStrikeSharp/AzLink.cs:231 | scanning the digits `n.ToString()` prints reads `n` back |
| Text.IntString | AzLink-CounterStrikeSharp/AzLink.cs:68 | `int.ToString()` of a status code or a `UserId`: a minus sign exactly when the number is negative, then its decimal digits |
| Text.ParseULong | AzLink-CounterStrikeSharp/AzLink.cs:208 | `ulong.Parse`: optional white space, an optional sign, at least one digit, optional white space; a negative non-zero value, a value above 2^64 - 1 or any other text fails |
| Text.ParseDecimal | AzLink-CounterStrikeSharp/AzLink.cs:208 | every printed SteamID parses back to itself with `ulong.Parse` |
| Text.ParseNeedsDigit | AzLink-CounterStrikeSharp/AzLink.cs:208 | a uid without any digit makes `ulong.Parse` fail |
| Sequences.FlattenLength | AzLink-CounterStrikeSharp/AzLink.cs:206-222 | the nested loops emit as many items as the inner lists hold in total |
| Sequences.FlattenAt | AzLink-CounterStrikeSharp/AzLink.cs:206-222 | item `k` of list `i` lands right after all items of the lists before it |
| FetchGate.Step | AzLink-CounterStrikeSharp/AzLink.cs:109-126 | one tick of the gate: nothing and no change when unconfigured or within 15 s of `lastSent`; otherwise a request at `now`, full iff the minute is divisible by 15 and 60 s have passed since `lastFullSent`, which moves only for a full one |
| FetchGate.Run | AzLink-Oxide/AzLink.cs:88-105 | the requests a sequence of timer ticks sends, in order, and the timestamps it leaves |
| FetchGate.RequestsSpaced | AzLink-CounterStrikeSharp/AzLink.cs:114-119 | over any run of ticks, requests are at least 15 s apart and at least 15 s after `lastSent`; a tick sends at most one |
| FetchGate.FullRequestsSpaced | AzLink-CounterStrikeSharp/AzLink.cs:121-126 | full requests are at least 60 s apart and at least 60 s after `lastFullSent` |
| FetchGate.FullOnQuarterHour | AzLink-Oxide/AzLink.cs:100 | every full request goes out on a minute divisible by 15 |
| FetchGate.UnconfiguredSilent | AzLink-Oxide/AzLink.cs:88-91 | with the URL or the key missing, no tick sends anything and the timestamps stay put |
| Protocol.RouteFetch | AzLink-CounterStrikeSharp/AzLink.cs:148-161 | a code outside 200..299 reaches the error handler with that code; the callback gets the commands exactly when the code is 2xx and the body parsed |
| Protocol.RoutePing | AzLink-Oxide/AzLink.cs:138-146 | a code outside 200..299 reaches the error handler with that code; the success callback runs exactly on a 2xx code |
| Protocol.FetchReplies | AzLink-CounterStrikeSharp/AzLink.cs:97-102 | the manual fetch replies "fetched" only when the dispatch ran to its end, the error text with the code on a rejection, and nothing when the request was abandoned |
| Protocol.PingReplies | AzLink-Oxide/AzLink.cs:45-49 | a ping replies the given success text on a 2xx answer, the error text with the code on any other code, and nothing when the request ended in an exception |
| Protocol.ErrorReply | AzLink-Oxide/AzLink.cs:49 | the reply to a non-2xx code: the fixed text followed by the code in decimal |
| Protocol.ErrorReplyNamesCode | AzLink-CounterStrikeSharp/AzLink.cs:68 | different status codes give different error replies |
| Protocol.IntStringInjective | AzLink-Oxide/AzLink.cs:49 | `int.ToString()` maps different codes to different strings |
| Protocol.MegabytesBounds | AzLink-CounterStrikeSharp/AzLink.cs:252 | the `ram` figure, the byte count divided by 1024 twice, is the number of whole mebibytes in it |
| Protocol.EntriesRoundTrip | AzLink-Oxide/AzLink.cs:178-181 | the `{name, uid}` player list reads back as the entries written, in order |
| CounterStrikeSharp.GetServerData | AzLink-CounterStrikeSharp/AzLink.cs:227-256 | the keys are platform, version, players, maxPlayers and full, plus ram exactly when full; `full` is the flag; `version` is the module version and `maxPlayers` the slot count; the platform is COUNTER_STRIKE_SHARP with key uid; one player entry per player; ram is the memory in MB |
| CounterStrikeSharp.ReportedPlayers | AzLink-CounterStrikeSharp/AzLink.cs:229-232 | the report lists every player in order with their name, and each uid parses back to that player's SteamID |
| CounterStrikeSharp.Substitute | AzLink-CounterStrikeSharp/AzLink.cs:214-216 | a template with `{player}`, then `{id}`, then `{steam_id}` replaced, each `Replace` applied to the result of the one before |
| CounterStrikeSharp.TargetName | AzLink-CounterStrikeSharp/AzLink.cs:208-209 | the online player's name when the SteamID finds a controller, else the website's name |
| CounterStrikeSharp.TargetId | AzLink-CounterStrikeSharp/AzLink.cs:208-210 | the controller's `UserId` in decimal when it has one, else the website's uid |
| CounterStrikeSharp.Commands | AzLink-CounterStrikeSharp/AzLink.cs:212-221 | one command per template |
| CounterStrikeSharp.CommandsAt | AzLink-CounterStrikeSharp/AzLink.cs:212-221 | command `k` is template `k` with the three placeholders filled |
| CounterStrikeSharp.FetchOutcomeOf | AzLink-CounterStrikeSharp/AzLink.cs:148-161 | what the callbacks of a report request do: on a 2xx answer with a parsed body the commands of `Executed` run and the dispatch completes iff every uid parses; on any other code the error handler gets it; otherwise nothing happens |
| CounterStrikeSharp.FirstUnparsable | AzLink-CounterStrikeSharp/AzLink.cs:206-208 | the index of the entry whose `ulong.Parse` throws and ends the loop, or the length of the list when none does; never past the end |
| CounterStrikeSharp.Executed | AzLink-CounterStrikeSharp/AzLink.cs:206-222 | the commands the nested loops run: the filled templates of every entry before the first unparsable uid, in list order and then template order |
| CounterStrikeSharp.ExecutedPrefix | AzLink-CounterStrikeSharp/AzLink.cs:206-208 | a dispatch runs what a dispatch of the entries before the first unparsable uid runs, and every uid among those parses |
| CounterStrikeSharp.FirstUnparsableSpec | AzLink-CounterStrikeSharp/AzLink.cs:206-208 | every uid before the first unparsable index parses and the uid at it does not; the index reaches the end exactly when every uid parses |
| CounterStrikeSharp.DispatchCount | AzLink-CounterStrikeSharp/AzLink.cs:199-222 | one command runs per template of each entry before the first unparsable uid; when all parse, the count is the sum of the `Values` lengths |
| CounterStrikeSharp.DispatchOrder | AzLink-CounterStrikeSharp/AzLink.cs:206-216 | when every uid parses, commands run in list order, then template order, each filled with the online name and `UserId`, or the website's name and uid when the player is offline |
| CounterStrikeSharp.DispatchOrderBeforeFailure | AzLink-CounterStrikeSharp/AzLink.cs:206-216 | the same order and filling hold for every entry before the first unparsable uid, whatever follows it |
| CounterStrikeSharp.SubstituteVerbatim | AzLink-CounterStrikeSharp/AzLink.cs:214-216 | a template with none of the three placeholders runs verbatim |
| CounterStrikeSharp.DispatchVerbatim | AzLink-CounterStrikeSharp/AzLink.cs:206-222 | when every uid parses and no template holds a placeholder, the commands run are the templates themselves, in order |
| CounterStrikeSharp.DispatchVerbatimBeforeFailure | AzLink-CounterStrikeSharp/AzLink.cs:206-222 | without placeholders the commands run are the templates of the entries before the first unparsable uid, in order |
| CounterStrikeSharp.SubstituteFillsName | AzLink-CounterStrikeSharp/AzLink.cs:214 | `{player}` is replaced by the name and the rest kept, when no other `{` appears in the template or the name |
| CounterStrikeSharp.NameIsRescanned | AzLink-CounterStrikeSharp/AzLink.cs:214-216 | the replacements run one after the other: a player named `{steam_id}` turns `{player}` into the uid |
| CounterStrikeSharp.AzLink.constructor | AzLink-CounterStrikeSharp/AzLink.cs:19-20 | both timestamps start at the load time; the parsed URL and key are installed |
| CounterStrikeSharp.AzLink.OnSetupCommand | AzLink-CounterStrikeSharp/AzLink.cs:48-71 | with fewer than 3 arguments it only replies with the help text; otherwise it stores URL and key, and on the ping's answer replies "Linked" and saves, or replies the error code and clears the URL |
| CounterStrikeSharp.AzLink.OnStatusCommand | AzLink-CounterStrikeSharp/AzLink.cs:75-85 | "not configured" without a URL; otherwise the ping's reply, or an exception when the key is missing |
| CounterStrikeSharp.AzLink.OnFetchCommand | AzLink-CounterStrikeSharp/AzLink.cs:89-103 | "not configured" and nothing sent without a URL; otherwise a full report and the reply of its outcome; the timestamps are not touched |
| CounterStrikeSharp.AzLink.TryFetch | AzLink-CounterStrikeSharp/AzLink.cs:105-130 | the decision and new timestamps are those of `FetchGate.Step`: no request and no change when unconfigured or within 15 s; otherwise `lastSent := now`, full iff quarter-hour minute and 60 s since `lastFullSent`, which moves only then |
| CounterStrikeSharp.AzLink.RunFetch | AzLink-CounterStrikeSharp/AzLink.cs:132-169 | the payload is `GetServerData(full)` and the outcome is the routed response: dispatch, error code, or nothing |
| CounterStrikeSharp.AzLink.PingWebsite | AzLink-CounterStrikeSharp/AzLink.cs:171-197 | it throws exactly when URL or key is missing; otherwise the status code is routed |
| CounterStrikeSharp.AzLink.DispatchCommands | AzLink-CounterStrikeSharp/AzLink.cs:199-225 | the commands run are `Executed`: those of every entry before the first unparsable uid; it completes iff every uid parses; an empty list runs nothing |
| CounterStrikeSharp.AzLink.ExecuteTemplates | AzLink-CounterStrikeSharp/AzLink.cs:212-221 | the inner loop runs one filled command per template, in order |
| Oxide.GetServerData | AzLink-Oxide/AzLink.cs:176-205 | the keys are platform, version, players, maxPlayers and full, plus ram exactly when full; `full` is the flag; `version` is the plugin version and `maxPlayers` the slot count; the platform is OXIDE, "Oxide - game", key uid; one player entry per connected player; ram is the memory in MB |
| Oxide.ReportedPlayers | AzLink-Oxide/AzLink.cs:178-181 | the report lists every connected player in order with their name and id |
| Oxide.Substitute | AzLink-Oxide/AzLink.cs:164-165 | a template with `{player}`, then `{steam_id}` replaced, the second `Replace` applied to the result of the first |
| Oxide.TargetName | AzLink-Oxide/AzLink.cs:159-160 | the found player's name when the uid finds one, else the website's name |
| Oxide.Executed | AzLink-Oxide/AzLink.cs:157-170 | the commands the nested loops run: the filled templates of every entry, in list order and then template order |
| Oxide.FetchOutcomeOf | AzLink-Oxide/AzLink.cs:116-124 | what the callbacks of a report request do: on a 2xx answer with a parsed body the commands of `Executed` run and the dispatch always completes; on a code below 200 or from 300 up the error handler gets it; otherwise nothing happens |
| Oxide.Commands | AzLink-Oxide/AzLink.cs:162-170 | one command per template |
| Oxide.CommandsAt | AzLink-Oxide/AzLink.cs:162-170 | command `k` is template `k` with `{player}` and `{steam_id}` filled |
| Oxide.DispatchCount | AzLink-Oxide/AzLink.cs:150-170 | one command runs per template, the sum of the `Values` lengths; none for an empty list |
| Oxide.DispatchOrder | AzLink-Oxide/AzLink.cs:157-165 | commands run in list order, then template order, each filled with the found player's name or the website's name |
| Oxide.SubstituteVerbatim | AzLink-Oxide/AzLink.cs:164-165 | a template with neither placeholder runs verbatim |
| Oxide.DispatchVerbatim | AzLink-Oxide/AzLink.cs:157-170 | without placeholders the commands run are the templates themselves, in order |
| Oxide.SubstituteFillsName | AzLink-Oxide/AzLink.cs:164 | `{player}` is replaced by the name and the rest kept, when no other `{` appears in the template or the name |
| Oxide.IdLeftVerbatim | AzLink-Oxide/AzLink.cs:164-165 | `{id}` is not a placeholder here: a template whose only `{` opens `{id}` runs as written |
| Oxide.AzLink.constructor | AzLink-Oxide/AzLink.cs:16-17 | both timestamps start at the load time; the loaded URL and key are installed |
| Oxide.AzLink.SetupCommand | AzLink-Oxide/AzLink.cs:33-50 | with fewer than 2 arguments it only replies with the help text; otherwise it stores URL and key, keeps them whatever the ping answers, and replies and saves on success |
| Oxide.AzLink.StatusCommand | AzLink-Oxide/AzLink.cs:53-63 | "not configured" without a URL; otherwise the ping's reply, or an exception when the key is missing |
| Oxide.AzLink.FetchCommand | AzLink-Oxide/AzLink.cs:66-80 | "not configured" and nothing sent without a URL; otherwise a full report and the reply of its outcome; the timestamps are not touched |
| Oxide.AzLink.TryFetch | AzLink-Oxide/AzLink.cs:82-109 | the decision and new timestamps are those of `FetchGate.Step`, as for CounterStrikeSharp |
| Oxide.AzLink.RunFetch | AzLink-Oxide/AzLink.cs:111-126 | the payload is `GetServerData(full)`; a code `< 200` or `>= 300` goes to the error handler, any other to the dispatch of the parsed body |
| Oxide.AzLink.PingWebsite | AzLink-Oxide/AzLink.cs:128-148 | it throws exactly when URL or key is missing; otherwise the status code is routed |
| Oxide.AzLink.DispatchCommands | AzLink-Oxide/AzLink.cs:150-174 | the commands run are `Executed`: those of every entry in order; an empty list runs nothing |
| Oxide.AzLink.ExecuteTemplates | AzLink-Oxide/AzLink.cs:162-170 | the inner loop runs one filled command per template, in order |

## Left out

- HTTP transport: `HttpClient`, `webrequest.Enqueue`, `InitHttpClient`, the request headers and the URI. Their observable effect is the `Response`/`PingResponse` parameter, including an exception before any status code. A CounterStrikeSharp manual fetch with a URL but no key goes through an unconfigured client; the response parameter stands for whatever that yields.
- JSON serialization of the payload and deserialization of the reply. The payload is a `map<string, Json>`. The reply is either a parsed command list or `None` when it does not parse (a null `FetchResponse`); `None` leads to the exception path.
- Async and threading: `async void`, `Server.NextFrameAsync` and the callbacks of `webrequest.Enqueue`. Each request and its callback are collapsed into one call. The exception raised by a CounterStrikeSharp `PingWebsite` is modelled as the `threw` flag, whether it reaches the caller or the synchronization context.
- Timers (`AddTimer`, `timer.Every`). A timer's ticks are a sequence of `TryFetch` calls, and `FetchGate.Run` gives that sequence's behaviour.
- Real time. `DateTime.Now` is a whole number of seconds plus the minute of the hour; fractional `TotalSeconds` is not modelled.
- `GC.GetTotalMemory`, the player tables, versions and slot count are inputs. The player lookups are maps.
- `SaveConfig`, logging and `Console.WriteLine`. Saving is reported as the `saved` flag of the setup commands.
- CounterStrikeSharp.AzLink.constructor: folds `OnConfigParsed` into construction and does not model a configuration reloaded later.
- Text.ParseULong: `ulong.Parse` also accepts trailing NUL characters; the model does not.
- Strings: Dafny's `char` is a Unicode scalar value, not a UTF-16 code unit, so a lone surrogate in a name or uid is not represented and a character outside the Basic Multilingual Plane is one `char`, not two. Every pattern the plugins replace is ASCII.
- CounterStrikeSharp.AzLink.DispatchCommands, Oxide.AzLink.DispatchCommands: a null entry in the command list, a null `values` list or a null template throws inside the callback and ends the dispatch at that entry, after the earlier entries' commands ran, with no "fetched" reply. `PendingCommand` holds no nulls, so the model does not represent this: with CounterStrikeSharp a dispatch completes whenever every uid parses, and with Oxide it always completes. A null name needs no such line, since `Replace` treats a null replacement as empty.
- Oxide.AzLink.RunFetch: a reply whose `commands` is null makes the callback throw. The model has no null list; such a reply counts as one that does not parse.
- CounterStrikeSharp.AzLink.RunFetch: likewise, a reply whose `Commands` is null makes `commands.Count` throw inside the callback; the model counts such a reply as one that does not parse.
- Culture: `int.ToString()` and `ulong.Parse` use the current culture's sign strings. The model assumes the invariant culture, with ASCII `-` and `+`.
