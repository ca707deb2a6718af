/** One pass of `monitor_api` as a function of its inputs: the server list
    fetched for the cycle, the rows of `configs`, the channels the bot can
    resolve, the alert states left by the previous cycle, and the index of
    the first `channel.send` that raises, if any. */
module Evaluation {
  import opened Basics
  import opened Text
  import opened Records

  /** The two rule kinds: a server-name rule and a map rule. */
  datatype Kind = ByName | ByMap

  /** The green "Server/Map Alert" embed and the red "below the minimum" embed. */
  datatype Notice = Entered | Exited

  /** `{"server_alerts": {...}, "map_alerts": {...}}` of one alert. */
  datatype AlertState = AlertState(serverAlerts: map<string, bool>, mapAlerts: map<string, bool>)

  /** `alert_states`, keyed by alert id. */
  type States = map<int, AlertState>

  /** A message sent to a channel: the role mention that precedes an embed,
      or the embed itself. The alert id is not visible in Discord; it is kept
      so that messages can be told apart per rule. */
  datatype Message =
    | Ping(channel: int, role: string)
    | Alert(channel: int, alertId: int, kind: Kind, notice: Notice, server: Server)

  /** Why a cycle was abandoned by the outer `except`. */
  datatype CycleError =
    | BadChannelId       // `int(channel_id)` raised
    | MissingThreshold   // `server["Players"] >= None` raised
    | SendFailed         // `channel.send` raised

  datatype Outcome = Done | Aborted(error: CycleError)

  /** The state of a cycle in progress: alert states, messages sent so far,
      and whether an exception has ended the cycle. */
  datatype Progress = Progress(states: States, sent: seq<Message>, outcome: Outcome)

  const Fresh := AlertState(map[], map[])

  function Flags(st: AlertState, kind: Kind): map<string, bool> {
    match kind
    case ByName => st.serverAlerts
    case ByMap => st.mapAlerts
  }

  /** The server field a rule of this kind is keyed by: `Name` or `Map`. */
  function Key(kind: Kind, s: Server): string {
    match kind
    case ByName => s.name
    case ByMap => s.mapName
  }

  /** `alert_states[alert_id][...].get(key, False)`. */
  predicate Flag(states: States, id: int, kind: Kind, key: string) {
    id in states && key in Flags(states[id], kind) && Flags(states[id], kind)[key]
  }

  function WithFlag(st: AlertState, kind: Kind, key: string, b: bool): AlertState {
    match kind
    case ByName => st.(serverAlerts := st.serverAlerts[key := b])
    case ByMap => st.(mapAlerts := st.mapAlerts[key := b])
  }

  /** `alert_states[alert_id][...][key] = b`. */
  function SetFlag(states: States, id: int, kind: Kind, key: string, b: bool): (r: States)
    ensures r.Keys == states.Keys + {id}
  {
    states[id := WithFlag(if id in states then states[id] else Fresh, kind, key, b)]
  }

  /** Setting one flag changes that flag and no other. */
  lemma FlagAfterSet(states: States, id: int, kind: Kind, key: string, b: bool,
                     id': int, kind': Kind, key': string)
    ensures Flag(SetFlag(states, id, kind, key, b), id', kind', key') ==
      if id' == id && kind' == kind && key' == key then b else Flag(states, id', kind', key')
  {
    var st := if id in states then states[id] else Fresh;
    if id' == id && kind' != kind {
      assert Flags(WithFlag(st, kind, key, b), kind') == Flags(st, kind');
    }
  }

  /** Whether a rule's filter matches a server: a non-empty name contained in
      the server name, or a non-empty map equal to the server's map, both
      ignoring case. */
  predicate Matches(kind: Kind, row: AlertRow, s: Server) {
    match kind
    case ByName => row.alertName.Some? && row.alertName.value != "" && ContainsIgnoringCase(row.alertName.value, s.name)
    case ByMap => row.alertMap.Some? && row.alertMap.value != "" && EqualsIgnoringCase(row.alertMap.value, s.mapName)
  }

  /** `if ping_role_id:` on the nullable TEXT column. */
  predicate PingsRole(role: Option<string>) {
    role.Some? && role.value != ""
  }

  datatype ChannelLookup = Invalid | Unresolved | Resolved(channel: int)

  /** `bot.get_channel(int(channel_id))`: `int` raises on NULL and on text
      that is not a number; an id the bot cannot see gives no channel. */
  function Lookup(channelId: Option<string>, channels: set<int>): (r: ChannelLookup)
    ensures r.Resolved? ==> r.channel in channels
    ensures r == Invalid <==> channelId.None? || ParseInt(channelId.value).None?
    ensures r.Resolved? <==>
      channelId.Some? && ParseInt(channelId.value).Some? && ParseInt(channelId.value).value in channels
    ensures r.Resolved? ==> ParseInt(channelId.value) == Some(r.channel)
  {
    if channelId.None? then Invalid
    else match ParseInt(channelId.value)
      case None => Invalid
      case Some(n) => if n in channels then Resolved(n) else Unresolved
  }

  /** A channel id that `setup` stored with `str` resolves to that channel
      exactly when the bot can see it, and never raises. */
  lemma LookupStoredId(n: int, channels: set<int>)
    ensures Lookup(Some(ShowInt(n)), channels) == if n in channels then Resolved(n) else Unresolved
  {
    ParseShowInt(n);
  }

  /** `await channel.send(...)`; the send numbered `failAt` raises. */
  function Send(p: Progress, m: Message, failAt: Option<nat>): (r: Progress)
    ensures r.states == p.states
    ensures r.outcome.Done? <==> p.outcome.Done? && failAt != Some(|p.sent|)
    ensures r.sent == if r.outcome.Done? then p.sent + [m] else p.sent
  {
    if p.outcome.Aborted? then p
    else if failAt == Some(|p.sent|) then p.(outcome := Aborted(SendFailed))
    else p.(sent := p.sent + [m])
  }

  /** The role mention when the rule pings, the embed, then the new flag. */
  function Notify(p: Progress, channel: int, row: AlertRow, kind: Kind, notice: Notice,
                  s: Server, failAt: Option<nat>): Progress
  {
    var p1 := if PingsRole(row.pingRoleId) then Send(p, Ping(channel, row.pingRoleId.value), failAt) else p;
    var p2 := Send(p1, Alert(channel, row.alertId, kind, notice, s), failAt);
    if p2.outcome.Aborted? then p2
    else p2.(states := SetFlag(p2.states, row.alertId, kind, Key(kind, s), notice == Entered))
  }

  /** One "Check server name alerts" or "Check map alerts" block. */
  function Check(p: Progress, channel: int, row: AlertRow, kind: Kind, s: Server,
                 failAt: Option<nat>): Progress
  {
    if p.outcome.Aborted? || !Matches(kind, row, s) then p
    else if row.minPlayers.None? then p.(outcome := Aborted(MissingThreshold))
    else if s.players >= row.minPlayers.value then
      if Flag(p.states, row.alertId, kind, Key(kind, s)) then p
      else Notify(p, channel, row, kind, Entered, s, failAt)
    else if Truthy(row.belowWarning) && Flag(p.states, row.alertId, kind, Key(kind, s)) then
      Notify(p, channel, row, kind, Exited, s, failAt)
    else p
  }

  /** The states with an entry for `id`, created empty when missing. */
  function WithEntry(states: States, id: int): (r: States)
    ensures id in r
  {
    if id in states then states else states[id := Fresh]
  }

  /** The body of the inner loop for one server and one rule. */
  function Visit(p: Progress, pair: (Server, AlertRow), channels: set<int>, failAt: Option<nat>): Progress {
    var (s, row) := pair;
    if p.outcome.Aborted? then p
    else match Lookup(row.channelId, channels)
      case Invalid => p.(outcome := Aborted(BadChannelId))
      case Unresolved => p
      case Resolved(channel) =>
        var p1 := p.(states := WithEntry(p.states, row.alertId));
        Check(Check(p1, channel, row, ByName, s, failAt), channel, row, ByMap, s, failAt)
  }

  /** One server against every rule, in row order. */
  function Across(s: Server, rows: seq<AlertRow>): (r: seq<(Server, AlertRow)>)
    ensures |r| == |rows|
    decreases |rows|
  {
    if |rows| == 0 then [] else Across(s, rows[..|rows| - 1]) + [(s, rows[|rows| - 1])]
  }

  /** Every (server, rule) pair in the order the nested loops visit them:
      servers outside, rules inside. */
  function Pairs(servers: seq<Server>, rows: seq<AlertRow>): seq<(Server, AlertRow)>
    decreases |servers|
  {
    if |servers| == 0 then []
    else Pairs(servers[..|servers| - 1], rows) + Across(servers[|servers| - 1], rows)
  }

  /** The loop body applied to the pairs in order. */
  function Run(p: Progress, pairs: seq<(Server, AlertRow)>, channels: set<int>, failAt: Option<nat>): Progress
    decreases |pairs|
  {
    if |pairs| == 0 then p
    else Visit(Run(p, pairs[..|pairs| - 1], channels, failAt), pairs[|pairs| - 1], channels, failAt)
  }

  /** One whole cycle, from the states the previous cycle left. */
  function Cycle(states: States, servers: seq<Server>, rows: seq<AlertRow>, channels: set<int>,
                 failAt: Option<nat>): Progress
  {
    Run(Progress(states, [], Done), Pairs(servers, rows), channels, failAt)
  }

  /** Running one more pair is one more loop body. */
  lemma RunSnoc(p: Progress, a: seq<(Server, AlertRow)>, x: (Server, AlertRow), channels: set<int>, failAt: Option<nat>)
    ensures Run(p, a + [x], channels, failAt) == Visit(Run(p, a, channels, failAt), x, channels, failAt)
  {
    assert (a + [x])[..|a|] == a;
  }

  /** Once an exception has ended the cycle, the remaining pairs change nothing. */
  lemma {:induction false} RunAbortedPrefix(p: Progress, a: seq<(Server, AlertRow)>, b: seq<(Server, AlertRow)>,
                                            channels: set<int>, failAt: Option<nat>)
    requires a <= b
    requires Run(p, a, channels, failAt).outcome.Aborted?
    ensures Run(p, b, channels, failAt) == Run(p, a, channels, failAt)
    decreases |b|
  {
    if |b| > |a| {
      var init := b[..|b| - 1];
      assert a <= init;
      RunAbortedPrefix(p, a, init, channels, failAt);
    } else {
      assert a == b;
    }
  }

  /** The pairs of the first `k` servers come first. */
  lemma {:induction false} PairsPrefix(servers: seq<Server>, rows: seq<AlertRow>, k: nat)
    requires k <= |servers|
    ensures Pairs(servers[..k], rows) <= Pairs(servers, rows)
    decreases |servers|
  {
    if k < |servers| {
      var init := servers[..|servers| - 1];
      assert servers[..k] == init[..k];
      PairsPrefix(init, rows, k);
    } else {
      assert servers[..k] == servers;
    }
  }

  /** The pairs of one more server are that server against every rule. */
  lemma PairsSnoc(servers: seq<Server>, rows: seq<AlertRow>, i: nat)
    requires i < |servers|
    ensures Pairs(servers[..i + 1], rows) == Pairs(servers[..i], rows) + Across(servers[i], rows)
  {
    assert servers[..i + 1][..i] == servers[..i];
  }

  lemma AcrossSnoc(s: Server, rows: seq<AlertRow>, j: nat)
    requires j < |rows|
    ensures Across(s, rows[..j + 1]) == Across(s, rows[..j]) + [(s, rows[j])]
  {
    assert rows[..j + 1][..j] == rows[..j];
  }

  lemma {:induction false} AcrossPrefix(s: Server, rows: seq<AlertRow>, j: nat)
    requires j <= |rows|
    ensures Across(s, rows[..j]) <= Across(s, rows)
    decreases |rows|
  {
    if j < |rows| {
      var init := rows[..|rows| - 1];
      assert rows[..j] == init[..j];
      AcrossPrefix(s, init, j);
    } else {
      assert rows[..j] == rows;
    }
  }

  lemma PrefixExtend<T>(p: seq<T>, a: seq<T>, b: seq<T>)
    requires a <= b
    ensures p + a <= p + b
  {
    assert (p + b)[..|p + a|] == p + a;
  }

  lemma PrefixTransitive<T>(a: seq<T>, b: seq<T>, c: seq<T>)
    requires a <= b && b <= c
    ensures a <= c
  {
    assert c[..|b|][..|a|] == c[..|a|];
  }

  /** The pairs visited before and at server `i`, rule `j` are a prefix of the cycle. */
  lemma VisitedPrefix(servers: seq<Server>, rows: seq<AlertRow>, i: nat, j: nat)
    requires i < |servers| && j < |rows|
    ensures Pairs(servers[..i], rows) + Across(servers[i], rows[..j + 1]) <= Pairs(servers, rows)
  {
    var before := Pairs(servers[..i], rows);
    AcrossPrefix(servers[i], rows, j + 1);
    PrefixExtend(before, Across(servers[i], rows[..j + 1]), Across(servers[i], rows));
    PairsSnoc(servers, rows, i);
    PairsPrefix(servers, rows, i + 1);
    PrefixTransitive(before + Across(servers[i], rows[..j + 1]), Pairs(servers[..i + 1], rows), Pairs(servers, rows));
  }

  /** One more step of the inner loop is one more loop body. */
  lemma NextPair(p: Progress, servers: seq<Server>, rows: seq<AlertRow>, i: nat, j: nat,
                 channels: set<int>, failAt: Option<nat>)
    requires i < |servers| && j < |rows|
    ensures Run(p, Pairs(servers[..i], rows) + Across(servers[i], rows[..j + 1]), channels, failAt) ==
      Visit(Run(p, Pairs(servers[..i], rows) + Across(servers[i], rows[..j]), channels, failAt),
            (servers[i], rows[j]), channels, failAt)
  {
    var before := Pairs(servers[..i], rows) + Across(servers[i], rows[..j]);
    AcrossSnoc(servers[i], rows, j);
    assert before + [(servers[i], rows[j])] == Pairs(servers[..i], rows) + Across(servers[i], rows[..j + 1]);
    RunSnoc(p, before, (servers[i], rows[j]), channels, failAt);
  }

  /** An exception at server `i`, rule `j` is the end of the whole cycle. */
  lemma AbortEndsCycle(p: Progress, servers: seq<Server>, rows: seq<AlertRow>, i: nat, j: nat,
                       channels: set<int>, failAt: Option<nat>)
    requires i < |servers| && j < |rows|
    requires Run(p, Pairs(servers[..i], rows) + Across(servers[i], rows[..j + 1]), channels, failAt).outcome.Aborted?
    ensures Run(p, Pairs(servers, rows), channels, failAt) ==
      Run(p, Pairs(servers[..i], rows) + Across(servers[i], rows[..j + 1]), channels, failAt)
  {
    VisitedPrefix(servers, rows, i, j);
    RunAbortedPrefix(p, Pairs(servers[..i], rows) + Across(servers[i], rows[..j + 1]), Pairs(servers, rows), channels, failAt);
  }
}
