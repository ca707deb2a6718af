# BattleBit server monitor: the alert engine

A Dafny model of the core of `BSM.py`, a Discord bot that polls the public
BattleBit server list every 60 seconds and posts to a guild's channel when a
server whose name (or whose map) matches one of the guild's alert rules
reaches the rule's player threshold, and, when the rule asks for it, when the
server drops below it again.

What is modelled:

- **One poll cycle of `monitor_api`** (`evaluation.dfy`, `monitor.dfy`). The
  `alert_states` dictionary is the field `alertStates` of the class
  `Monitor.AlertMonitor`. Its method `PollCycle` runs the two nested loops,
  servers outside and rules inside, with the name check and then the map
  check for each pair. It is proved equal to the function `Evaluation.Cycle`.
  The outcome says whether the cycle finished or an exception cut it short.
  Three exceptions can end a cycle, and the outer `except` catches each:
  - `int(channel_id)` raises on a NULL or non-numeric id;
  - `server["Players"] >= None` raises for a rule with no threshold;
  - a `channel.send` raises. The parameter `failAt` names the first send
    that raises.
- **Properties of a cycle** (`properties.dfy`):
  - the embeds of one rule for one server name (or one map) alternate between
    "entered" and "below the minimum";
  - no second "entered" embed for one rule and one key (a server name, or a
    map) is sent before a "below the minimum" embed for that key. For a map
    rule the key is shared by every server on the map, so one server at the
    threshold and another below it make the rule announce the map again in
    every cycle (`Properties.MapRuleRepeats`);
  - polling the same list again after a completed cycle sends no second
    "entered" embed of a name rule, when server names and rule ids are
    distinct (`Properties.NameRerunQuiet`);
  - one (server, rule) pair can send both a name embed and a map embed in
    one visit, the name embed first (`Properties.VisitBothEntered`);
  - every embed is warranted by a (server, rule) pair and comes right after
    the rule's role mention exactly when the rule has a role to ping;
  - every role mention is followed by its embed, unless that send raised;
  - a rule whose channel cannot be found changes nothing;
  - a matching rule whose channel resolves but which has no threshold ends
    the cycle;
  - server `i` meets rule `j` at step `i * |rules| + j`.
- **The `listservers` filter** (`listing.dfy`), as a function over the
  fetched list.
- **`update_config`** (`updates.dfy`): the method that assembles the `SET`
  clauses and parameters. It is proved against a specification of the partial
  update, together with the `togglebelowwarning` flip built on it.
- **The row conversion of `load_configs`** (`records.dfy`), with the
  `str`/`int` round trip of the ids that `setup` stores as text (`text.dfy`).

Notes on how `monitor_api` in `BSM.py` behaves, which the model follows:

- A matching rule whose channel resolves and whose `min_players` is NULL
  does not just stay silent. Comparing the player count with `None` raises,
  and the whole cycle is abandoned (`Properties.CycleMissingThreshold`). When
  the channel id parses but names no visible channel, the rule is skipped
  before that comparison and the cycle goes on.
- A channel id that cannot be parsed does not skip only that rule. `int(...)`
  raises outside any per-rule handler, so the whole cycle ends. Only an id
  that parses but names no visible channel is skipped
  (`Properties.CycleSkipsUnresolved`).
- The loops visit servers outside and rules inside, not the other way round
  (`Properties.PairsAt`).
- A send that raises leaves the flag of that alert unchanged and ends the
  cycle. The flag is written only after the embed was sent.

## Model

| member | source | states |
|---|---|---|
| Monitor.AlertMonitor.constructor | BSM.py:38 | `alert_states` starts empty |
| Monitor.AlertMonitor.PollCycle | BSM.py:386-492 | the nested loops leave `alertStates`, the messages sent and the outcome exactly as `Evaluation.Cycle` gives them from the states before the cycle |
| Monitor.AlertMonitor.VisitPair | BSM.py:402-489 | the inner loop body leaves the states, messages and outcome exactly as `Evaluation.Visit` gives them: an id that does not parse aborts, an unseen channel changes nothing, otherwise the entry is created and the name check then the map check run |
| Monitor.AlertMonitor.CheckAlert | BSM.py:415-450 | one name or map block: a matching rule without a threshold aborts; at or above the threshold with the flag off it announces "entered"; below it with the warning on and the flag on it announces "below"; otherwise nothing changes |
| Monitor.AlertMonitor.Announce | BSM.py:417-434 | the role mention when the rule has a role, then the embed, then the flag set; a raising send ends the cycle before the flag is written |
| Evaluation.Lookup | BSM.py:403-405 | the lookup fails by exception exactly when the id is NULL or not an integer; it resolves exactly when the id parses to a channel the bot can see, and then to that parsed id |
| Evaluation.LookupStoredId | BSM.py:209 | a channel id stored by `setup` with `str` never raises, and resolves to that channel exactly when the bot can see it |
| Evaluation.Send | BSM.py:420 | a send appends exactly its message unless it is the one that raises, which ends the cycle and appends nothing; states are untouched |
| Evaluation.FlagAfterSet | BSM.py:434 | writing a flag changes that (alert, kind, key) flag and no other |
| Evaluation.RunAbortedPrefix | BSM.py:491-492 | once an exception has ended the cycle, the remaining pairs change nothing |
| Evaluation.AbortEndsCycle | BSM.py:386-492 | an exception at server `i`, rule `j` fixes the result of the whole cycle |
| Evaluation.VisitedPrefix | BSM.py:399-401 | the pairs up to server `i`, rule `j` are a prefix of the cycle's pairs |
| Properties.CheckSettles | BSM.py:415-450 | a check that completes leaves the rule settled for that key: at or above the threshold the flag is raised; below it with the warning on the flag is lowered; below it with the warning off the flag is left as it was |
| Properties.SettledCheckIsSkip | BSM.py:417 | a check whose flag already agrees sends nothing and changes nothing |
| Properties.CheckIdempotent | BSM.py:415-434 | checking a rule twice for the same server is checking it once: no second announcement |
| Properties.VisitIdempotent | BSM.py:403-489 | visiting the same (server, rule) pair twice in a row is visiting it once |
| Properties.CheckKeepsOtherKind | BSM.py:414-489 | the name check never changes a map flag and the map check never a name flag |
| Properties.CheckKeepsEntries | BSM.py:408-412 | a check never drops an alert's entry |
| Properties.RunKeepsEntries | BSM.py:399-489 | an alert's entry, once created, is never dropped by any step of the loop |
| Properties.CycleAlternates | BSM.py:415-489 | per alert, kind and key, the embeds of a cycle alternate between "entered" and "below", starting from what the incoming flag allows; the final flag records the last one |
| Properties.RunTracks | BSM.py:399-489 | every loop step keeps that alternation |
| Properties.CycleAccounted | BSM.py:414-489 | every embed is warranted by a visited pair (channel resolved, filter matches, threshold set and crossed the right way, warning on for "below"); it follows the rule's role mention exactly when the rule has a non-empty role; every mention is followed by its embed unless that send raised |
| Properties.RunAccounted | BSM.py:399-489 | every prefix of the loop keeps those guarantees |
| Properties.PairsAt | BSM.py:399-402 | the cycle has `|servers| * |rows|` steps and step `i * |rows| + j` is server `i` against rule `j` |
| Properties.PairsMembers | BSM.py:399-401 | a pair is visited exactly when its server is listed and its rule stored |
| Properties.AcrossAt | BSM.py:401 | one server meets the rules in row order |
| Properties.Reachable | BSM.py:403-405 | the rules the inner loop does not skip: exactly those whose channel resolves or whose id raises, kept in row order (a subsequence of the rows) |
| Properties.CycleSkipsUnresolved | BSM.py:403-405 | dropping the rules whose channel cannot be found leaves the whole cycle unchanged |
| Properties.VisitBothEntered | BSM.py:414-472 | a rule whose name and map filters both match a server at its threshold, with both flags off, sends the name embed then the map embed, each after the role mention when the rule pings, and raises both flags |
| Properties.MapRuleRepeats | BSM.py:453-489 | a map rule over two servers on the same map, one at the threshold and one below, sends "entered" then "below" for the map in the first cycle and again in the next |
| Properties.RunRaises | BSM.py:414-434 | when no two visited pairs share a name flag, a loop that completes leaves the name flag raised for every pair whose channel resolves, whose name filter matches and whose server has reached the threshold |
| Properties.RunStaysQuiet | BSM.py:414-450 | a loop that starts with those flags raised keeps them raised and sends no "entered" embed of a name rule |
| Properties.NameRerunQuiet | BSM.py:386-492 | with server names distinct and rule ids distinct, polling the same list after a completed cycle sends no "entered" embed of a name rule, whatever send raises |
| Properties.CycleMissingThreshold | BSM.py:416 | a rule with a resolvable channel, a matching filter and no threshold makes the cycle end by exception |
| Records.OptionalId | BSM.py:103-104 | `int(x) if x else None`: empty or NULL gives no id; otherwise the parsed id, or an exception when it is not a number |
| Records.LoadConfig | BSM.py:98-106 | the dictionary has the row's fields, ids converted and the warning flag as the column's truthiness; conversion fails exactly when an id does not parse |
| Records.LoadConfigs | BSM.py:96-107 | every row converted in order, or failure exactly when some row fails |
| Records.LoadStoredRow | BSM.py:209 | a row stored by `setup`, ids written with `str`, loads back with the same ids |
| Text.IsInfixCorrect | BSM.py:415 | the substring test holds exactly when the needle occurs at some position |
| Text.ParseShowInt | BSM.py:403 | `int(str(n)) == n` for every integer |
| Properties.CycleEmptyChannelId | BSM.py:103 | a row whose `channel_id` is empty text loads as a rule without channel, yet a cycle that reaches it ends by exception, since `int("")` raises at BSM.py:403 |
| Listing.ListServers | BSM.py:319-326 | the listed servers are a subsequence of the fetched list; each qualifies, every qualifying server is listed, and each as many times as it is fetched |
| Updates.UpdateConfig | BSM.py:112-139 | the statement executed, if any, is `UpdateStatement` of the arguments: built from the given arguments in fixed order, and run only when `below_warning_enabled` is given |
| Updates.AssignmentsExact | BSM.py:117-134 | one `SET` clause per given argument and none for the others, in the fixed column order, each binding that argument's value (a boolean as 0 or 1) |
| Updates.ColumnsOfAt | BSM.py:117-134 | the `k`-th parameter belongs to the `k`-th clause |
| Updates.UpdateStatementShape | BSM.py:132-137 | `below_warning_enabled` is the last clause; the parameters are the clause values in order followed by `alert_id` |
| Updates.ClosingStatement | BSM.py:132-137 | after the first five arguments, adding the warning clause, its 0/1 value and `alert_id` gives exactly the statement of the partial update |
| Updates.ClauseTexts | BSM.py:117-133 | the clause text of each column |
| Updates.BelowWarningOnly | BSM.py:297 | given `below_warning_enabled` alone, the statement sets just that column, binding 0 or 1 and then the id |
| Updates.ToggleBelowWarning | BSM.py:284-297 | a missing alert writes nothing; otherwise the stored setting is written negated |
| Updates.ToggleTwiceRestores | BSM.py:296 | toggling the value one toggle wrote gives back the original setting |
| Updates.EditCommandWritesNothing | BSM.py:258-260 | as written, `editalert` executes no statement whatever fields it is given |
| Updates.IntendedUpdateStatement | BSM.py:112-139 | the intended update runs exactly when at least one argument is given, binding the given values and then the id |
| Updates.IntendedWritesGivenFields | BSM.py:112-139 | with the intended update, an edit giving any of the first five arguments and not the warning flag executes a statement that does not set the warning flag |
| Updates.IntendedEditCommandWrites | BSM.py:258-260 | with the intended update, `editalert` given any field executes its statement, which never sets the warning flag |
| Updates.IntendedAgreesWhenBelowGiven | BSM.py:132-139 | whenever `below_warning_enabled` is given, the written and the intended update agree |

## Left out

- The Discord client (`bot.get_channel`, `channel.send`, command registration, interaction replies, embeds' titles, colours and fields). Channels are a set of visible ids, and a message records its channel, the alert and the server.
- The HTTP fetch and JSON decoding of the server list. A cycle takes the decoded list as a parameter. A missing JSON key or a failing request, which also ends the cycle, is not modelled.
- SQLite and SQLAlchemy: connecting, `SELECT`, commit. Rows are a parameter, and `update_config` is modelled up to the statement and parameters it hands to `execute`. `init_db`, `save_config`, `delete_config`, `list_alerts` and `help` are not modelled.
- The endless `while` loop, `asyncio.sleep(60)` and `wait_until_ready`. The model is one cycle applied to the states the previous cycle left.
- Logging with `print`.
- Text.Lower: lowercases ASCII letters only; Python's `str.lower()` also folds other Unicode letters.
- Text.ParseInt: accepts an optional sign and ASCII digits only; Python's `int()` also accepts surrounding whitespace, `_` separators and non-ASCII digits.
- Records.AlertRow: `min_players` is taken as an integer or NULL. SQLite's dynamic typing would let other values through.
- Listing.ListServers: the bounded reply text built from the filtered list is not modelled.

## Findings

| source | as written | input that shows it | evidently intended | confidence | as-written member | corrected member |
|---|---|---|---|---|---|---|
| BSM.py:132-139 | the lines that append `alert_id`, build the query and execute it sit inside `if below_warning_enabled is not None:` | `editalert` with any fields, e.g. a new `min_players`: it never passes `below_warning_enabled`, so nothing is written while the command reports success | run the update whenever at least one field is given | high, by reading the indentation; not executed | Updates.EditCommandWritesNothing | Updates.IntendedUpdateStatement |
