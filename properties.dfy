/** What one cycle of `monitor_api` guarantees: per rule and key the alerts
    alternate, every message is accounted for by a (server, rule) pair, a
    second poll of the same list announces no server by name again, rules
    whose channel cannot be found change nothing, and the pairs are visited
    servers-outer, rules-inner. */
module Properties {
  import opened Basics
  import opened Text
  import opened Records
  import opened Evaluation
  import opened Listing

  /** A rule's check has nothing left to do for this server: either it does
      not match, or its flag already says what the player count says. */
  predicate Settled(states: States, row: AlertRow, kind: Kind, s: Server) {
    !Matches(kind, row, s) ||
    (row.minPlayers.Some? &&
     if s.players >= row.minPlayers.value then Flag(states, row.alertId, kind, Key(kind, s))
     else !(Truthy(row.belowWarning) && Flag(states, row.alertId, kind, Key(kind, s))))
  }

  /** A check that completes leaves its rule settled for that server. */
  lemma CheckSettles(p: Progress, channel: int, row: AlertRow, kind: Kind, s: Server, failAt: Option<nat>)
    requires Check(p, channel, row, kind, s, failAt).outcome.Done?
    ensures Settled(Check(p, channel, row, kind, s, failAt).states, row, kind, s)
  {
    var key := Key(kind, s);
    if Matches(kind, row, s) {
      var q := Check(p, channel, row, kind, s, failAt);
      if q != p {
        var notice := if s.players >= row.minPlayers.value then Entered else Exited;
        assert q == Notify(p, channel, row, kind, notice, s, failAt);
        var p1 := if PingsRole(row.pingRoleId) then Send(p, Ping(channel, row.pingRoleId.value), failAt) else p;
        var p2 := Send(p1, Alert(channel, row.alertId, kind, notice, s), failAt);
        assert q.states == SetFlag(p2.states, row.alertId, kind, key, notice == Entered);
        FlagAfterSet(p2.states, row.alertId, kind, key, notice == Entered, row.alertId, kind, key);
      }
    }
  }

  /** A settled check sends nothing and changes nothing. */
  lemma SettledCheckIsSkip(p: Progress, channel: int, row: AlertRow, kind: Kind, s: Server, failAt: Option<nat>)
    requires Settled(p.states, row, kind, s)
    ensures Check(p, channel, row, kind, s, failAt) == p
  {
  }

  /** A check only touches the flags of its own kind. */
  lemma CheckKeepsOtherKind(p: Progress, channel: int, row: AlertRow, kind: Kind, s: Server, failAt: Option<nat>,
                            id: int, other: Kind, key: string)
    requires other != kind
    ensures Flag(Check(p, channel, row, kind, s, failAt).states, id, other, key) == Flag(p.states, id, other, key)
  {
    var q := Check(p, channel, row, kind, s, failAt);
    if q.states != p.states {
      var notice := if s.players >= row.minPlayers.value then Entered else Exited;
      assert q == Notify(p, channel, row, kind, notice, s, failAt);
      var p1 := if PingsRole(row.pingRoleId) then Send(p, Ping(channel, row.pingRoleId.value), failAt) else p;
      var p2 := Send(p1, Alert(channel, row.alertId, kind, notice, s), failAt);
      FlagAfterSet(p2.states, row.alertId, kind, Key(kind, s), notice == Entered, id, other, key);
    }
  }

  /** Checking a rule twice in a row is checking it once: a rule whose server
      is above the threshold is announced once, not again. */
  lemma CheckIdempotent(p: Progress, channel: int, row: AlertRow, kind: Kind, s: Server, failAt: Option<nat>)
    ensures var q := Check(p, channel, row, kind, s, failAt);
      Check(q, channel, row, kind, s, failAt) == q
  {
    var q := Check(p, channel, row, kind, s, failAt);
    if q.outcome.Done? {
      CheckSettles(p, channel, row, kind, s, failAt);
      SettledCheckIsSkip(q, channel, row, kind, s, failAt);
    }
  }

  /** Visiting the same (server, rule) pair again right away sends nothing
      and changes nothing: neither the name check nor the map check repeats. */
  lemma VisitIdempotent(p: Progress, pair: (Server, AlertRow), channels: set<int>, failAt: Option<nat>)
    ensures var q := Visit(p, pair, channels, failAt);
      Visit(q, pair, channels, failAt) == q
  {
    var (s, row) := pair;
    var q := Visit(p, pair, channels, failAt);
    if p.outcome.Done? && q.outcome.Done? && Lookup(row.channelId, channels).Resolved? {
      var channel := Lookup(row.channelId, channels).channel;
      var p1 := p.(states := WithEntry(p.states, row.alertId));
      var n := Check(p1, channel, row, ByName, s, failAt);
      assert q == Check(n, channel, row, ByMap, s, failAt);
      CheckSettles(p1, channel, row, ByName, s, failAt);
      CheckSettles(n, channel, row, ByMap, s, failAt);
      CheckKeepsOtherKind(n, channel, row, ByMap, s, failAt, row.alertId, ByName, Key(ByName, s));
      assert Settled(q.states, row, ByName, s);
      assert row.alertId in q.states by {
        assert row.alertId in p1.states;
        CheckKeepsEntries(p1, channel, row, ByName, s, failAt);
        CheckKeepsEntries(n, channel, row, ByMap, s, failAt);
      }
      assert q.(states := WithEntry(q.states, row.alertId)) == q;
      SettledCheckIsSkip(q, channel, row, ByName, s, failAt);
      SettledCheckIsSkip(q, channel, row, ByMap, s, failAt);
    }
  }

  /** A check never drops an alert's entry. */
  lemma CheckKeepsEntries(p: Progress, channel: int, row: AlertRow, kind: Kind, s: Server, failAt: Option<nat>)
    ensures p.states.Keys <= Check(p, channel, row, kind, s, failAt).states.Keys
  {
  }

  /** A visit never drops an alert's entry. */
  lemma VisitKeepsEntries(p: Progress, pair: (Server, AlertRow), channels: set<int>, failAt: Option<nat>)
    ensures p.states.Keys <= Visit(p, pair, channels, failAt).states.Keys
  {
    var (s, row) := pair;
    if p.outcome.Done? && Lookup(row.channelId, channels).Resolved? {
      var channel := Lookup(row.channelId, channels).channel;
      var p1 := p.(states := WithEntry(p.states, row.alertId));
      CheckKeepsEntries(p1, channel, row, ByName, s, failAt);
      CheckKeepsEntries(Check(p1, channel, row, ByName, s, failAt), channel, row, ByMap, s, failAt);
    }
  }

  /** An alert's entry, once created, is never dropped by a cycle. */
  lemma {:induction false} RunKeepsEntries(p: Progress, pairs: seq<(Server, AlertRow)>, channels: set<int>,
                                           failAt: Option<nat>)
    ensures p.states.Keys <= Run(p, pairs, channels, failAt).states.Keys
    decreases |pairs|
  {
    if |pairs| > 0 {
      RunKeepsEntries(p, pairs[..|pairs| - 1], channels, failAt);
      VisitKeepsEntries(Run(p, pairs[..|pairs| - 1], channels, failAt), pairs[|pairs| - 1], channels, failAt);
    }
  }

  /** Whether a message is the embed of rule `id` and kind `kind` for `key`. */
  predicate AlertFor(m: Message, id: int, kind: Kind, key: string) {
    m.Alert? && m.alertId == id && m.kind == kind && Key(kind, m.server) == key
  }

  /** The embeds of one rule and kind for one key, in the order they were sent. */
  function Trace(sent: seq<Message>, id: int, kind: Kind, key: string): seq<Notice>
    decreases |sent|
  {
    if |sent| == 0 then []
    else
      var m := sent[|sent| - 1];
      Trace(sent[..|sent| - 1], id, kind, key) + (if AlertFor(m, id, kind, key) then [m.notice] else [])
  }

  lemma TraceSnoc(sent: seq<Message>, m: Message, id: int, kind: Kind, key: string)
    ensures Trace(sent + [m], id, kind, key) ==
      Trace(sent, id, kind, key) + (if AlertFor(m, id, kind, key) then [m.notice] else [])
  {
    assert (sent + [m])[..|sent|] == sent;
  }

  /** `b` flipped `n` times. */
  function Toggled(b: bool, n: nat): bool {
    if n % 2 == 0 then b else !b
  }

  /** The embeds alternate between "entered" and "below the minimum",
      starting from whichever the flag `b` allows first. */
  predicate Alternating(t: seq<Notice>, b: bool) {
    forall i :: 0 <= i < |t| ==> t[i] == (if Toggled(b, i) then Exited else Entered)
  }

  /** The embeds sent so far for one key alternate from `b`, and the flag
      records the last of them. */
  predicate Tracks(p: Progress, id: int, kind: Kind, key: string, b: bool) {
    var t := Trace(p.sent, id, kind, key);
    Alternating(t, b) && Flag(p.states, id, kind, key) == Toggled(b, |t|)
  }

  /** A role mention is not an embed: it leaves every trace as it was. */
  lemma PingTracks(p: Progress, m: Message, failAt: Option<nat>, id: int, kind: Kind, key: string, b: bool)
    requires m.Ping?
    requires Tracks(p, id, kind, key, b)
    ensures Tracks(Send(p, m, failAt), id, kind, key, b)
  {
    if Send(p, m, failAt).outcome.Done? {
      TraceSnoc(p.sent, m, id, kind, key);
    }
  }

  /** The next embed of an alternation is the one the count so far calls for. */
  lemma AlternatingSnoc(t: seq<Notice>, b: bool, notice: Notice)
    requires Alternating(t, b)
    requires notice == (if Toggled(b, |t|) then Exited else Entered)
    ensures Alternating(t + [notice], b)
    ensures Toggled(b, |t + [notice]|) == !Toggled(b, |t|)
  {
    var t' := t + [notice];
    forall i | 0 <= i < |t'| ensures t'[i] == (if Toggled(b, i) then Exited else Entered) {
      if i < |t| {
        assert t'[i] == t[i];
      }
    }
  }

  /** Sending an embed and recording its flag extends the trace of its key
      by one step of the alternation, and no other trace. */
  lemma AlertTracks(p: Progress, channel: int, row: AlertRow, kind: Kind, notice: Notice, s: Server,
                    failAt: Option<nat>, id: int, kind': Kind, key: string, b: bool)
    requires Tracks(p, id, kind', key, b)
    requires notice == Entered ==> !Flag(p.states, row.alertId, kind, Key(kind, s))
    requires notice == Exited ==> Flag(p.states, row.alertId, kind, Key(kind, s))
    ensures var p2 := Send(p, Alert(channel, row.alertId, kind, notice, s), failAt);
      Tracks(if p2.outcome.Aborted? then p2
             else p2.(states := SetFlag(p2.states, row.alertId, kind, Key(kind, s), notice == Entered)),
             id, kind', key, b)
  {
    var alert := Alert(channel, row.alertId, kind, notice, s);
    var p2 := Send(p, alert, failAt);
    if p2.outcome.Done? {
      var t := Trace(p.sent, id, kind', key);
      var q := p2.(states := SetFlag(p2.states, row.alertId, kind, Key(kind, s), notice == Entered));
      assert q.sent == p.sent + [alert];
      TraceSnoc(p.sent, alert, id, kind', key);
      FlagAfterSet(p.states, row.alertId, kind, Key(kind, s), notice == Entered, id, kind', key);
      if AlertFor(alert, id, kind', key) {
        AlternatingSnoc(t, b, notice);
        assert Trace(q.sent, id, kind', key) == t + [notice];
      } else {
        assert Trace(q.sent, id, kind', key) == t;
      }
    }
  }

  lemma NotifyTracks(p: Progress, channel: int, row: AlertRow, kind: Kind, notice: Notice, s: Server,
                     failAt: Option<nat>, id: int, kind': Kind, key: string, b: bool)
    requires Tracks(p, id, kind', key, b)
    requires notice == Entered ==> !Flag(p.states, row.alertId, kind, Key(kind, s))
    requires notice == Exited ==> Flag(p.states, row.alertId, kind, Key(kind, s))
    ensures Tracks(Notify(p, channel, row, kind, notice, s, failAt), id, kind', key, b)
  {
    if PingsRole(row.pingRoleId) {
      PingTracks(p, Ping(channel, row.pingRoleId.value), failAt, id, kind', key, b);
    }
    var p1 := if PingsRole(row.pingRoleId) then Send(p, Ping(channel, row.pingRoleId.value), failAt) else p;
    AlertTracks(p1, channel, row, kind, notice, s, failAt, id, kind', key, b);
  }

  lemma CheckTracks(p: Progress, channel: int, row: AlertRow, kind: Kind, s: Server,
                    failAt: Option<nat>, id: int, kind': Kind, key: string, b: bool)
    requires Tracks(p, id, kind', key, b)
    ensures Tracks(Check(p, channel, row, kind, s, failAt), id, kind', key, b)
  {
    if p.outcome.Done? && Matches(kind, row, s) && row.minPlayers.Some? {
      if s.players >= row.minPlayers.value {
        if !Flag(p.states, row.alertId, kind, Key(kind, s)) {
          NotifyTracks(p, channel, row, kind, Entered, s, failAt, id, kind', key, b);
        }
      } else if Truthy(row.belowWarning) && Flag(p.states, row.alertId, kind, Key(kind, s)) {
        NotifyTracks(p, channel, row, kind, Exited, s, failAt, id, kind', key, b);
      }
    }
  }

  lemma VisitTracks(p: Progress, pair: (Server, AlertRow), channels: set<int>, failAt: Option<nat>,
                    id: int, kind: Kind, key: string, b: bool)
    requires Tracks(p, id, kind, key, b)
    ensures Tracks(Visit(p, pair, channels, failAt), id, kind, key, b)
  {
    var (s, row) := pair;
    if p.outcome.Done? && Lookup(row.channelId, channels).Resolved? {
      var channel := Lookup(row.channelId, channels).channel;
      var p1 := p.(states := WithEntry(p.states, row.alertId));
      assert Flag(p1.states, id, kind, key) == Flag(p.states, id, kind, key);
      CheckTracks(p1, channel, row, ByName, s, failAt, id, kind, key, b);
      CheckTracks(Check(p1, channel, row, ByName, s, failAt), channel, row, ByMap, s, failAt, id, kind, key, b);
    }
  }

  /** Every loop body keeps the alternation of every key. */
  lemma {:induction false} RunTracks(p: Progress, pairs: seq<(Server, AlertRow)>, channels: set<int>,
                                     failAt: Option<nat>, id: int, kind: Kind, key: string, b: bool)
    requires Tracks(p, id, kind, key, b)
    ensures Tracks(Run(p, pairs, channels, failAt), id, kind, key, b)
    decreases |pairs|
  {
    if |pairs| > 0 {
      RunTracks(p, pairs[..|pairs| - 1], channels, failAt, id, kind, key, b);
      VisitTracks(Run(p, pairs[..|pairs| - 1], channels, failAt), pairs[|pairs| - 1], channels, failAt, id, kind, key, b);
    }
  }

  /** Within a cycle, the embeds of one rule for one server name (or one map)
      alternate: an "entered" embed is not repeated before a "below the
      minimum" embed, and the other way round; the first is whichever the
      flag left by the previous cycle allows, and the flag ends up recording
      the last one sent. */
  lemma CycleAlternates(states: States, servers: seq<Server>, rows: seq<AlertRow>, channels: set<int>,
                        failAt: Option<nat>, id: int, kind: Kind, key: string)
    ensures var r := Cycle(states, servers, rows, channels, failAt);
      var t := Trace(r.sent, id, kind, key);
      && Alternating(t, Flag(states, id, kind, key))
      && Flag(r.states, id, kind, key) == Toggled(Flag(states, id, kind, key), |t|)
  {
    var start := Progress(states, [], Done);
    assert Trace(start.sent, id, kind, key) == [];
    RunTracks(start, Pairs(servers, rows), channels, failAt, id, kind, key, Flag(states, id, kind, key));
  }

  /** The conditions under which rule `pair.1` sends embed `m` about server
      `pair.0`: its channel resolves to the embed's channel, its filter
      matches, its threshold is set, the server is at or above it for an
      "entered" embed, and below it with the warning on for a "below" embed. */
  predicate Warranted(m: Message, pair: (Server, AlertRow), channels: set<int>) {
    var (s, row) := pair;
    && m.Alert?
    && m.server == s
    && m.alertId == row.alertId
    && Lookup(row.channelId, channels) == Resolved(m.channel)
    && Matches(m.kind, row, s)
    && row.minPlayers.Some?
    && (m.notice == Entered ==> s.players >= row.minPlayers.value)
    && (m.notice == Exited ==> s.players < row.minPlayers.value && Truthy(row.belowWarning))
  }

  /** Embed `k` comes right after the mention of the rule's role when the
      rule has one, and right after another embed (or first) when it has none. */
  predicate Announced(sent: seq<Message>, k: int, row: AlertRow)
    requires 0 <= k < |sent|
  {
    if PingsRole(row.pingRoleId) then k > 0 && sent[k - 1] == Ping(sent[k].channel, row.pingRoleId.value)
    else k == 0 || sent[k - 1].Alert?
  }

  /** Every embed sent is warranted by one of the pairs, and announced as its rule says. */
  predicate Explained(sent: seq<Message>, pairs: seq<(Server, AlertRow)>, channels: set<int>) {
    forall k :: 0 <= k < |sent| && sent[k].Alert? ==>
      exists pair :: pair in pairs && Warranted(sent[k], pair, channels) && Announced(sent, k, pair.1)
  }

  /** Every role mention is followed by an embed in the same channel, unless
      sending that embed raised and ended the cycle. */
  predicate PingsFollowed(sent: seq<Message>, outcome: Outcome) {
    forall k :: 0 <= k < |sent| ==> FollowedAt(sent, k, outcome)
  }

  predicate FollowedAt(sent: seq<Message>, k: int, outcome: Outcome)
    requires 0 <= k < |sent|
  {
    sent[k].Ping? ==>
      (k + 1 < |sent| && sent[k + 1].Alert? && sent[k + 1].channel == sent[k].channel) ||
      (k + 1 == |sent| && outcome == Aborted(SendFailed))
  }

  predicate Accounted(p: Progress, pairs: seq<(Server, AlertRow)>, channels: set<int>) {
    Explained(p.sent, pairs, channels) && PingsFollowed(p.sent, p.outcome)
  }

  lemma ExplainedPrefix(sent: seq<Message>, sent': seq<Message>, pairs: seq<(Server, AlertRow)>, channels: set<int>)
    requires Explained(sent, pairs, channels)
    requires sent <= sent'
    ensures forall k :: 0 <= k < |sent| && sent'[k].Alert? ==>
      exists pair :: pair in pairs && Warranted(sent'[k], pair, channels) && Announced(sent', k, pair.1)
  {
    forall k | 0 <= k < |sent| && sent'[k].Alert?
      ensures exists pair :: pair in pairs && Warranted(sent'[k], pair, channels) && Announced(sent', k, pair.1)
    {
      assert sent[k] == sent'[k];
      var pair :| pair in pairs && Warranted(sent[k], pair, channels) && Announced(sent, k, pair.1);
      if k > 0 {
        assert sent[k - 1] == sent'[k - 1];
      }
      assert Announced(sent', k, pair.1);
    }
  }

  /** An exception that ends a completed-so-far cycle keeps it accounted for. */
  lemma AbortAccounted(p: Progress, error: CycleError, pairs: seq<(Server, AlertRow)>, channels: set<int>)
    requires p.outcome.Done?
    requires Accounted(p, pairs, channels)
    ensures Accounted(p.(outcome := Aborted(error)), pairs, channels)
  {
    forall k | 0 <= k < |p.sent| ensures FollowedAt(p.sent, k, Aborted(error)) {
      assert FollowedAt(p.sent, k, p.outcome);
    }
  }

  lemma NotifyAccounted(p: Progress, channel: int, row: AlertRow, kind: Kind, notice: Notice, s: Server,
                        failAt: Option<nat>, pairs: seq<(Server, AlertRow)>, channels: set<int>)
    requires p.outcome.Done?
    requires Accounted(p, pairs, channels)
    requires (s, row) in pairs
    requires Warranted(Alert(channel, row.alertId, kind, notice, s), (s, row), channels)
    ensures Accounted(Notify(p, channel, row, kind, notice, s, failAt), pairs, channels)
  {
    NotifyFollowed(p, channel, row, kind, notice, s, failAt);
    NotifyExplained(p, channel, row, kind, notice, s, failAt, pairs, channels);
  }

  /** The messages a notification sends, and how it ends. */
  lemma NotifySent(p: Progress, channel: int, row: AlertRow, kind: Kind, notice: Notice, s: Server,
                   failAt: Option<nat>)
    requires p.outcome.Done?
    ensures var q := Notify(p, channel, row, kind, notice, s, failAt);
      var ping := if PingsRole(row.pingRoleId) then [Ping(channel, row.pingRoleId.value)] else [];
      || (q.outcome.Done? && q.sent == p.sent + ping + [Alert(channel, row.alertId, kind, notice, s)])
      || (q.outcome == Aborted(SendFailed) && (q.sent == p.sent || q.sent == p.sent + ping))
  {
  }

  lemma NotifyFollowed(p: Progress, channel: int, row: AlertRow, kind: Kind, notice: Notice, s: Server,
                       failAt: Option<nat>)
    requires p.outcome.Done?
    requires PingsFollowed(p.sent, p.outcome)
    ensures var q := Notify(p, channel, row, kind, notice, s, failAt);
      PingsFollowed(q.sent, q.outcome)
  {
    var q := Notify(p, channel, row, kind, notice, s, failAt);
    NotifySent(p, channel, row, kind, notice, s, failAt);
    LastNotPing(p.sent);
    forall i | 0 <= i < |q.sent| ensures FollowedAt(q.sent, i, q.outcome) {
      if i + 1 < |p.sent| {
        assert FollowedAt(p.sent, i, p.outcome);
        assert q.sent[i] == p.sent[i] && q.sent[i + 1] == p.sent[i + 1];
      } else if i + 1 == |p.sent| {
        assert q.sent[i] == p.sent[i];
      }
    }
  }

  lemma NotifyExplained(p: Progress, channel: int, row: AlertRow, kind: Kind, notice: Notice, s: Server,
                        failAt: Option<nat>, pairs: seq<(Server, AlertRow)>, channels: set<int>)
    requires p.outcome.Done?
    requires Accounted(p, pairs, channels)
    requires (s, row) in pairs
    requires Warranted(Alert(channel, row.alertId, kind, notice, s), (s, row), channels)
    ensures Explained(Notify(p, channel, row, kind, notice, s, failAt).sent, pairs, channels)
  {
    if Notify(p, channel, row, kind, notice, s, failAt).outcome.Done? {
      NotifyEmbedExplained(p, channel, row, kind, notice, s, failAt, pairs, channels);
    } else {
      NotifySent(p, channel, row, kind, notice, s, failAt);
      PingsExplained(p.sent, Notify(p, channel, row, kind, notice, s, failAt).sent, pairs, channels);
    }
  }

  /** A completed notification adds role mentions and one explained embed. */
  lemma NotifyEmbedExplained(p: Progress, channel: int, row: AlertRow, kind: Kind, notice: Notice, s: Server,
                             failAt: Option<nat>, pairs: seq<(Server, AlertRow)>, channels: set<int>)
    requires p.outcome.Done?
    requires Explained(p.sent, pairs, channels) && PingsFollowed(p.sent, p.outcome)
    requires (s, row) in pairs
    requires Warranted(Alert(channel, row.alertId, kind, notice, s), (s, row), channels)
    requires Notify(p, channel, row, kind, notice, s, failAt).outcome.Done?
    ensures Explained(Notify(p, channel, row, kind, notice, s, failAt).sent, pairs, channels)
  {
    var ping := if PingsRole(row.pingRoleId) then [Ping(channel, row.pingRoleId.value)] else [];
    NotifySent(p, channel, row, kind, notice, s, failAt);
    NotifyAnnounced(p, channel, row, kind, notice, s, failAt);
    EmbedExplained(p.sent, ping, Alert(channel, row.alertId, kind, notice, s), pairs, channels, (s, row));
  }

  /** Role mentions followed by one embed that a visited pair warrants and
      announces keep every embed explained. */
  lemma EmbedExplained(sent: seq<Message>, ping: seq<Message>, alert: Message, pairs: seq<(Server, AlertRow)>,
                       channels: set<int>, origin: (Server, AlertRow))
    requires Explained(sent, pairs, channels)
    requires forall m :: m in ping ==> m.Ping?
    requires origin in pairs && Warranted(alert, origin, channels)
    requires Announced(sent + ping + [alert], |sent + ping|, origin.1)
    ensures Explained(sent + ping + [alert], pairs, channels)
  {
    var sent' := sent + ping + [alert];
    forall k | |sent| <= k < |sent'| - 1 ensures sent'[k].Ping? {
      assert sent'[k] == ping[k - |sent|];
    }
    ExplainedExtend(sent, sent', pairs, channels, origin);
  }

  /** Appending role mentions keeps every embed explained. */
  lemma PingsExplained(sent: seq<Message>, sent': seq<Message>, pairs: seq<(Server, AlertRow)>, channels: set<int>)
    requires Explained(sent, pairs, channels)
    requires sent <= sent'
    requires forall k :: |sent| <= k < |sent'| ==> sent'[k].Ping?
    ensures Explained(sent', pairs, channels)
  {
    ExplainedPrefix(sent, sent', pairs, channels);
  }

  /** Appending role mentions, possibly followed by one embed that a visited
      pair warrants and announces, keeps every embed explained. */
  lemma ExplainedExtend(sent: seq<Message>, sent': seq<Message>, pairs: seq<(Server, AlertRow)>,
                        channels: set<int>, origin: (Server, AlertRow))
    requires Explained(sent, pairs, channels)
    requires sent <= sent'
    requires forall k :: |sent| <= k < |sent'| - 1 ==> sent'[k].Ping?
    requires |sent'| > |sent| ==>
      (sent'[|sent'| - 1].Ping? ||
       (origin in pairs && Warranted(sent'[|sent'| - 1], origin, channels) && Announced(sent', |sent'| - 1, origin.1)))
    ensures Explained(sent', pairs, channels)
  {
    ExplainedPrefix(sent, sent', pairs, channels);
    forall k | |sent| <= k < |sent'| && sent'[k].Alert?
      ensures exists pair :: pair in pairs && Warranted(sent'[k], pair, channels) && Announced(sent', k, pair.1)
    {
      assert k == |sent'| - 1;
      assert Warranted(sent'[k], origin, channels) && Announced(sent', k, origin.1);
    }
  }

  /** While a cycle runs, the last message sent is not a role mention. */
  lemma LastNotPing(sent: seq<Message>)
    requires PingsFollowed(sent, Done)
    ensures |sent| > 0 ==> sent[|sent| - 1].Alert?
  {
    if |sent| > 0 {
      assert FollowedAt(sent, |sent| - 1, Done);
    }
  }

  /** A completed notification ends with the embed, right after the role
      mention when the rule has one and right after the previous embed otherwise. */
  lemma NotifyAnnounced(p: Progress, channel: int, row: AlertRow, kind: Kind, notice: Notice, s: Server,
                        failAt: Option<nat>)
    requires p.outcome.Done?
    requires PingsFollowed(p.sent, p.outcome)
    requires Notify(p, channel, row, kind, notice, s, failAt).outcome.Done?
    ensures var q := Notify(p, channel, row, kind, notice, s, failAt);
      && |q.sent| > 0
      && q.sent[|q.sent| - 1] == Alert(channel, row.alertId, kind, notice, s)
      && Announced(q.sent, |q.sent| - 1, row)
  {
    var alert := Alert(channel, row.alertId, kind, notice, s);
    var q := Notify(p, channel, row, kind, notice, s, failAt);
    var k := |q.sent| - 1;
    if PingsRole(row.pingRoleId) {
      assert q.sent == p.sent + [Ping(channel, row.pingRoleId.value)] + [alert];
      assert q.sent[k - 1] == Ping(channel, row.pingRoleId.value);
    } else {
      assert q.sent == p.sent + [alert];
      if k > 0 {
        var last := |p.sent| - 1;
        assert q.sent[k - 1] == p.sent[last];
        LastNotPing(p.sent);
      }
    }
  }

  lemma CheckAccounted(p: Progress, channel: int, row: AlertRow, kind: Kind, s: Server,
                       failAt: Option<nat>, pairs: seq<(Server, AlertRow)>, channels: set<int>)
    requires Accounted(p, pairs, channels)
    requires (s, row) in pairs
    requires Lookup(row.channelId, channels) == Resolved(channel)
    ensures Accounted(Check(p, channel, row, kind, s, failAt), pairs, channels)
  {
    if p.outcome.Done? && Matches(kind, row, s) {
      if row.minPlayers.None? {
        AbortAccounted(p, MissingThreshold, pairs, channels);
      } else if s.players >= row.minPlayers.value {
        if !Flag(p.states, row.alertId, kind, Key(kind, s)) {
          NotifyAccounted(p, channel, row, kind, Entered, s, failAt, pairs, channels);
        }
      } else if Truthy(row.belowWarning) && Flag(p.states, row.alertId, kind, Key(kind, s)) {
        NotifyAccounted(p, channel, row, kind, Exited, s, failAt, pairs, channels);
      }
    }
  }

  lemma VisitAccounted(p: Progress, pair: (Server, AlertRow), channels: set<int>, failAt: Option<nat>,
                       pairs: seq<(Server, AlertRow)>)
    requires Accounted(p, pairs, channels)
    requires pair in pairs
    ensures Accounted(Visit(p, pair, channels, failAt), pairs, channels)
  {
    var (s, row) := pair;
    if p.outcome.Done? {
      match Lookup(row.channelId, channels)
      case Invalid => AbortAccounted(p, BadChannelId, pairs, channels);
      case Unresolved =>
      case Resolved(channel) =>
        var p1 := p.(states := WithEntry(p.states, row.alertId));
        CheckAccounted(p1, channel, row, ByName, s, failAt, pairs, channels);
        CheckAccounted(Check(p1, channel, row, ByName, s, failAt), channel, row, ByMap, s, failAt, pairs, channels);
    }
  }

  lemma {:induction false} RunAccounted(p: Progress, a: seq<(Server, AlertRow)>, channels: set<int>,
                                        failAt: Option<nat>, pairs: seq<(Server, AlertRow)>)
    requires Accounted(p, pairs, channels)
    requires forall x :: x in a ==> x in pairs
    ensures Accounted(Run(p, a, channels, failAt), pairs, channels)
    decreases |a|
  {
    if |a| > 0 {
      var init := a[..|a| - 1];
      assert forall x :: x in init ==> x in a;
      RunAccounted(p, init, channels, failAt, pairs);
      VisitAccounted(Run(p, init, channels, failAt), a[|a| - 1], channels, failAt, pairs);
    }
  }

  /** Every message a cycle sends is accounted for: each embed by a pair of
      a listed server and a stored rule that warrants it, preceded by the
      rule's role mention exactly when the rule has a role to ping, and each
      role mention followed by its embed in the same channel unless that
      send raised. */
  lemma CycleAccounted(states: States, servers: seq<Server>, rows: seq<AlertRow>, channels: set<int>,
                       failAt: Option<nat>)
    ensures var r := Cycle(states, servers, rows, channels, failAt);
      Explained(r.sent, Pairs(servers, rows), channels) && PingsFollowed(r.sent, r.outcome)
  {
    RunAccounted(Progress(states, [], Done), Pairs(servers, rows), channels, failAt, Pairs(servers, rows));
  }

  lemma {:induction false} AcrossAt(s: Server, rows: seq<AlertRow>)
    ensures forall j :: 0 <= j < |rows| ==> Across(s, rows)[j] == (s, rows[j])
    decreases |rows|
  {
    if |rows| > 0 {
      var init := rows[..|rows| - 1];
      AcrossAt(s, init);
      forall j | 0 <= j < |rows| ensures Across(s, rows)[j] == (s, rows[j]) {
        if j < |init| {
          assert Across(s, rows)[j] == Across(s, init)[j];
          assert init[j] == rows[j];
        }
      }
    }
  }

  /** `i * m`, built by repeated addition. */
  function Base(i: nat, m: nat): nat {
    if i == 0 then 0 else Base(i - 1, m) + m
  }

  lemma {:induction false} BaseIsProduct(i: nat, m: nat)
    ensures Base(i, m) == i * m
  {
    if i > 0 {
      BaseIsProduct(i - 1, m);
      assert (i - 1) * m + m == i * m;
    }
  }

  lemma {:induction false} BaseBelow(i: nat, j: nat, m: nat, n: nat)
    requires i < n && j < m
    ensures Base(i, m) + j < Base(n, m)
  {
    if i < n - 1 {
      BaseBelow(i, j, m, n - 1);
    }
  }

  lemma {:induction false} PairsLength(servers: seq<Server>, rows: seq<AlertRow>)
    ensures |Pairs(servers, rows)| == Base(|servers|, |rows|)
    decreases |servers|
  {
    if |servers| > 0 {
      PairsLength(servers[..|servers| - 1], rows);
    }
  }

  lemma {:induction false} PairsAtBase(servers: seq<Server>, rows: seq<AlertRow>, i: nat, j: nat)
    requires i < |servers| && j < |rows|
    ensures Base(i, |rows|) + j < |Pairs(servers, rows)|
    ensures Pairs(servers, rows)[Base(i, |rows|) + j] == (servers[i], rows[j])
    decreases |servers|
  {
    var n, m := |servers|, |rows|;
    var init := servers[..n - 1];
    var head := Pairs(init, rows);
    PairsLength(servers, rows);
    PairsLength(init, rows);
    BaseBelow(i, j, m, n);
    if i < n - 1 {
      PairsAtBase(init, rows, i, j);
      assert Pairs(servers, rows)[Base(i, m) + j] == head[Base(i, m) + j];
      assert init[i] == servers[i];
    } else {
      AcrossAt(servers[n - 1], rows);
      assert Pairs(servers, rows)[Base(i, m) + j] == Across(servers[n - 1], rows)[j];
    }
  }

  /** Position `i * |rows| + j` of `pairs` holds server `i` against rule `j`. */
  predicate VisitedAt(pairs: seq<(Server, AlertRow)>, servers: seq<Server>, rows: seq<AlertRow>, i: nat, j: nat)
    requires i < |servers| && j < |rows|
  {
    i * |rows| + j < |pairs| && pairs[i * |rows| + j] == (servers[i], rows[j])
  }

  lemma PairsAtOne(servers: seq<Server>, rows: seq<AlertRow>, i: nat, j: nat)
    requires i < |servers| && j < |rows|
    ensures VisitedAt(Pairs(servers, rows), servers, rows, i, j)
  {
    var pairs := Pairs(servers, rows);
    var k := Base(i, |rows|) + j;
    PairsAtBase(servers, rows, i, j);
    BaseIsProduct(i, |rows|);
    assert i * |rows| + j == k;
    assert k < |pairs| && pairs[k] == (servers[i], rows[j]);
  }

  /** The cycle visits server `i` against rule `j` at position
      `i * |rows| + j`: servers in the outer loop, rules in the inner one. */
  lemma PairsAt(servers: seq<Server>, rows: seq<AlertRow>)
    ensures |Pairs(servers, rows)| == |servers| * |rows|
    ensures forall i: nat, j: nat :: i < |servers| && j < |rows| ==>
      VisitedAt(Pairs(servers, rows), servers, rows, i, j)
  {
    PairsLength(servers, rows);
    BaseIsProduct(|servers|, |rows|);
    forall i: nat, j: nat | i < |servers| && j < |rows|
      ensures VisitedAt(Pairs(servers, rows), servers, rows, i, j)
    {
      PairsAtOne(servers, rows, i, j);
    }
  }

  /** A server is paired with exactly the stored rules. */
  lemma {:induction false} AcrossMembers(t: Server, rows: seq<AlertRow>)
    ensures forall s, row :: (s, row) in Across(t, rows) <==> s == t && row in rows
    decreases |rows|
  {
    if |rows| > 0 {
      var init := rows[..|rows| - 1];
      AcrossMembers(t, init);
      assert rows == init + [rows[|rows| - 1]];
    }
  }

  /** A pair is visited exactly when its server is listed and its rule stored. */
  lemma {:induction false} PairsMembers(servers: seq<Server>, rows: seq<AlertRow>)
    ensures forall s, row :: (s, row) in Pairs(servers, rows) <==> s in servers && row in rows
    decreases |servers|
  {
    if |servers| > 0 {
      var init := servers[..|servers| - 1];
      PairsMembers(init, rows);
      AcrossMembers(servers[|servers| - 1], rows);
      assert servers == init + [servers[|servers| - 1]];
    }
  }

  /** Running `a` then `b` is running `a + b`. */
  lemma {:induction false} RunAppend(p: Progress, a: seq<(Server, AlertRow)>, b: seq<(Server, AlertRow)>,
                                     channels: set<int>, failAt: Option<nat>)
    ensures Run(p, a + b, channels, failAt) == Run(Run(p, a, channels, failAt), b, channels, failAt)
    decreases |b|
  {
    if |b| == 0 {
      assert a + b == a;
    } else {
      var init := b[..|b| - 1];
      RunAppend(p, a, init, channels, failAt);
      assert a + b == (a + init) + [b[|b| - 1]];
      RunSnoc(p, a + init, b[|b| - 1], channels, failAt);
    }
  }

  /** The rules whose channel resolves or whose id does not parse: those the
      inner loop does not skip with `continue`. */
  function Reachable(rows: seq<AlertRow>, channels: set<int>): (r: seq<AlertRow>)
    ensures forall row :: row in r <==> row in rows && !Lookup(row.channelId, channels).Unresolved?
    ensures IsSubsequence(r, rows)
    decreases |rows|
  {
    if |rows| == 0 then []
    else
      var init := Reachable(rows[..|rows| - 1], channels);
      var row := rows[|rows| - 1];
      assert forall x :: x in rows <==> x in rows[..|rows| - 1] || x == row;
      if Lookup(row.channelId, channels).Unresolved? then init
      else
        assert (init + [row])[..|init|] == init;
        init + [row]
  }

  lemma {:induction false} RunAcrossReachable(p: Progress, s: Server, rows: seq<AlertRow>, channels: set<int>,
                                              failAt: Option<nat>)
    ensures Run(p, Across(s, rows), channels, failAt) == Run(p, Across(s, Reachable(rows, channels)), channels, failAt)
    decreases |rows|
  {
    if |rows| > 0 {
      var init := rows[..|rows| - 1];
      var row := rows[|rows| - 1];
      var kept := Reachable(init, channels);
      RunAcrossReachable(p, s, init, channels, failAt);
      RunSnoc(p, Across(s, init), (s, row), channels, failAt);
      if !Lookup(row.channelId, channels).Unresolved? {
        assert (kept + [row])[..|kept|] == kept;
        assert Across(s, kept + [row]) == Across(s, kept) + [(s, row)];
        RunSnoc(p, Across(s, kept), (s, row), channels, failAt);
      }
    }
  }

  lemma {:induction false} RunPairsReachable(p: Progress, servers: seq<Server>, rows: seq<AlertRow>,
                                             channels: set<int>, failAt: Option<nat>)
    ensures Run(p, Pairs(servers, rows), channels, failAt) ==
      Run(p, Pairs(servers, Reachable(rows, channels)), channels, failAt)
    decreases |servers|
  {
    if |servers| > 0 {
      var init := servers[..|servers| - 1];
      var last := servers[|servers| - 1];
      var kept := Reachable(rows, channels);
      RunPairsReachable(p, init, rows, channels, failAt);
      RunAppend(p, Pairs(init, rows), Across(last, rows), channels, failAt);
      RunAppend(p, Pairs(init, kept), Across(last, kept), channels, failAt);
      RunAcrossReachable(Run(p, Pairs(init, rows), channels, failAt), last, rows, channels, failAt);
    }
  }

  /** A rule whose channel id parses but names no channel the bot can see is
      skipped: the cycle sends and records exactly what it would without that rule. */
  lemma CycleSkipsUnresolved(states: States, servers: seq<Server>, rows: seq<AlertRow>, channels: set<int>,
                             failAt: Option<nat>)
    ensures Cycle(states, servers, rows, channels, failAt) ==
      Cycle(states, servers, Reachable(rows, channels), channels, failAt)
  {
    RunPairsReachable(Progress(states, [], Done), servers, rows, channels, failAt);
  }

  /** A rule without a threshold whose filter matches a listed server ends the
      cycle early: the comparison with `None` raises before the cycle completes. */
  lemma CycleMissingThreshold(states: States, servers: seq<Server>, rows: seq<AlertRow>, channels: set<int>,
                              failAt: Option<nat>, i: nat, j: nat)
    requires i < |servers| && j < |rows|
    requires Lookup(rows[j].channelId, channels).Resolved?
    requires Matches(ByName, rows[j], servers[i]) || Matches(ByMap, rows[j], servers[i])
    requires rows[j].minPlayers.None?
    ensures Cycle(states, servers, rows, channels, failAt).outcome.Aborted?
  {
    var start := Progress(states, [], Done);
    var x := (servers[i], rows[j]);
    var before := Pairs(servers[..i], rows) + Across(servers[i], rows[..j]);
    AcrossSnoc(servers[i], rows, j);
    assert before + [x] == Pairs(servers[..i], rows) + Across(servers[i], rows[..j + 1]);
    RunSnoc(start, before, x, channels, failAt);
    VisitedPrefix(servers, rows, i, j);
    RunAbortedPrefix(start, before + [x], Pairs(servers, rows), channels, failAt);
  }

  /** A row whose `channel_id` is the empty text loads (`load_configs` reads
      it as no channel), yet a cycle that reaches it ends by exception:
      `int("")` raises. */
  lemma CycleEmptyChannelId(states: States, servers: seq<Server>, rows: seq<AlertRow>, channels: set<int>,
                            failAt: Option<nat>, i: nat, j: nat)
    requires i < |servers| && j < |rows|
    requires rows[j].channelId == Some("")
    ensures OptionalId(rows[j].channelId) == Some(None)
    ensures LoadConfig(rows[j]).Some? <==> OptionalId(rows[j].pingRoleId).Some?
    ensures LoadConfig(rows[j]).Some? ==> LoadConfig(rows[j]).value.channelId.None?
    ensures Cycle(states, servers, rows, channels, failAt).outcome.Aborted?
  {
    var start := Progress(states, [], Done);
    var x := (servers[i], rows[j]);
    var before := Pairs(servers[..i], rows) + Across(servers[i], rows[..j]);
    var q := Run(start, before, channels, failAt);
    assert Lookup(rows[j].channelId, channels) == Invalid;
    assert Visit(q, x, channels, failAt).outcome.Aborted?;
    AcrossSnoc(servers[i], rows, j);
    assert before + [x] == Pairs(servers[..i], rows) + Across(servers[i], rows[..j + 1]);
    RunSnoc(start, before, x, channels, failAt);
    VisitedPrefix(servers, rows, i, j);
    RunAbortedPrefix(start, before + [x], Pairs(servers, rows), channels, failAt);
  }

  /** The same rule against the same server, by both filters: with the
      channel resolved, the threshold reached, both flags off and no send
      raising, the visit sends the name embed, then the map embed, each
      right after the role mention when the rule pings, and raises both flags. */
  lemma VisitBothEntered(p: Progress, s: Server, row: AlertRow, channels: set<int>, c: int, failAt: Option<nat>)
    requires p.outcome.Done? && failAt.None?
    requires Lookup(row.channelId, channels) == Resolved(c)
    requires Matches(ByName, row, s) && Matches(ByMap, row, s)
    requires row.minPlayers.Some? && s.players >= row.minPlayers.value
    requires !Flag(p.states, row.alertId, ByName, s.name) && !Flag(p.states, row.alertId, ByMap, s.mapName)
    ensures var q := Visit(p, (s, row), channels, failAt);
      var ping := if PingsRole(row.pingRoleId) then [Ping(c, row.pingRoleId.value)] else [];
      && q.outcome.Done?
      && q.sent == p.sent + ping + [Alert(c, row.alertId, ByName, Entered, s)]
                          + ping + [Alert(c, row.alertId, ByMap, Entered, s)]
      && Flag(q.states, row.alertId, ByName, s.name) && Flag(q.states, row.alertId, ByMap, s.mapName)
  {
    var ping := if PingsRole(row.pingRoleId) then [Ping(c, row.pingRoleId.value)] else [];
    var p1 := p.(states := WithEntry(p.states, row.alertId));
    assert !Flag(p1.states, row.alertId, ByName, s.name) && !Flag(p1.states, row.alertId, ByMap, s.mapName);
    var n := Check(p1, c, row, ByName, s, failAt);
    assert n == Notify(p1, c, row, ByName, Entered, s, failAt);
    NotifySent(p1, c, row, ByName, Entered, s, failAt);
    CheckSettles(p1, c, row, ByName, s, failAt);
    CheckKeepsOtherKind(p1, c, row, ByName, s, failAt, row.alertId, ByMap, s.mapName);
    var q := Check(n, c, row, ByMap, s, failAt);
    assert q == Notify(n, c, row, ByMap, Entered, s, failAt);
    NotifySent(n, c, row, ByMap, Entered, s, failAt);
    CheckSettles(n, c, row, ByMap, s, failAt);
    CheckKeepsOtherKind(n, c, row, ByMap, s, failAt, row.alertId, ByName, s.name);
  }

  /** Rule `x.1` is due to announce server `x.0` by name: its channel
      resolves, its name filter matches and the server has reached its threshold. */
  predicate NameDue(x: (Server, AlertRow), channels: set<int>) {
    && Lookup(x.1.channelId, channels).Resolved?
    && Matches(ByName, x.1, x.0)
    && x.1.minPlayers.Some?
    && x.0.players >= x.1.minPlayers.value
  }

  /** Every due pair among `pairs` has its name flag raised. */
  predicate NameRaised(states: States, pairs: seq<(Server, AlertRow)>, channels: set<int>) {
    forall y :: y in pairs && NameDue(y, channels) ==> Flag(states, y.1.alertId, ByName, y.0.name)
  }

  /** No two different pairs share a name flag: one rule id and one server
      name belong to one pair. */
  predicate NameKeyed(pairs: seq<(Server, AlertRow)>) {
    forall x, y :: x in pairs && y in pairs && x.1.alertId == y.1.alertId && x.0.name == y.0.name ==> x == y
  }

  /** No "entered" embed of a name rule. */
  predicate NoNameEntered(sent: seq<Message>) {
    forall m :: m in sent ==> !(m.Alert? && m.kind == ByName && m.notice == Entered)
  }

  /** What a name check does to the name flags: it touches only its own, it
      lowers it only for a server below the threshold, and when it completes
      for a server at or above the threshold it leaves it raised. */
  lemma CheckNameFlag(p: Progress, channel: int, row: AlertRow, s: Server, failAt: Option<nat>, id: int, key: string)
    ensures var q := Check(p, channel, row, ByName, s, failAt);
      && ((id != row.alertId || key != s.name) ==> Flag(q.states, id, ByName, key) == Flag(p.states, id, ByName, key))
      && (Flag(p.states, id, ByName, key) && !Flag(q.states, id, ByName, key) ==>
            row.minPlayers.Some? && s.players < row.minPlayers.value)
  {
    var q := Check(p, channel, row, ByName, s, failAt);
    if q.states != p.states {
      var notice := if s.players >= row.minPlayers.value then Entered else Exited;
      assert q == Notify(p, channel, row, ByName, notice, s, failAt);
      var p1 := if PingsRole(row.pingRoleId) then Send(p, Ping(channel, row.pingRoleId.value), failAt) else p;
      var p2 := Send(p1, Alert(channel, row.alertId, ByName, notice, s), failAt);
      FlagAfterSet(p2.states, row.alertId, ByName, s.name, notice == Entered, id, ByName, key);
    }
  }

  /** A visit changes the name flags only as its name check does. */
  lemma VisitNameFlag(p: Progress, x: (Server, AlertRow), channels: set<int>, failAt: Option<nat>, id: int, key: string)
    ensures var q := Visit(p, x, channels, failAt);
      && ((id != x.1.alertId || key != x.0.name) ==> Flag(q.states, id, ByName, key) == Flag(p.states, id, ByName, key))
      && (Flag(p.states, id, ByName, key) && !Flag(q.states, id, ByName, key) ==> !NameDue(x, channels))
      && (q.outcome.Done? && NameDue(x, channels) ==> Flag(q.states, x.1.alertId, ByName, x.0.name))
  {
    var (s, row) := x;
    if p.outcome.Done? && Lookup(row.channelId, channels).Resolved? {
      var channel := Lookup(row.channelId, channels).channel;
      var p1 := p.(states := WithEntry(p.states, row.alertId));
      assert Flag(p1.states, id, ByName, key) == Flag(p.states, id, ByName, key);
      var n := Check(p1, channel, row, ByName, s, failAt);
      CheckNameFlag(p1, channel, row, s, failAt, id, key);
      CheckKeepsOtherKind(n, channel, row, ByMap, s, failAt, id, ByName, key);
      if Check(n, channel, row, ByMap, s, failAt).outcome.Done? {
        CheckSettles(p1, channel, row, ByName, s, failAt);
        CheckKeepsOtherKind(n, channel, row, ByMap, s, failAt, row.alertId, ByName, s.name);
      }
    }
  }

  /** A check sends a name rule's "entered" embed only for a server at or
      above the threshold whose flag is off. */
  lemma CheckNoNameEntered(p: Progress, channel: int, row: AlertRow, kind: Kind, s: Server, failAt: Option<nat>)
    requires NoNameEntered(p.sent)
    requires kind == ByName && Matches(kind, row, s) && row.minPlayers.Some? && s.players >= row.minPlayers.value ==>
      Flag(p.states, row.alertId, kind, s.name)
    ensures NoNameEntered(Check(p, channel, row, kind, s, failAt).sent)
  {
    var q := Check(p, channel, row, kind, s, failAt);
    if p.outcome.Done? && Matches(kind, row, s) && row.minPlayers.Some? && q != p {
      var notice := if s.players >= row.minPlayers.value then Entered else Exited;
      assert q == Notify(p, channel, row, kind, notice, s, failAt);
      NotifySent(p, channel, row, kind, notice, s, failAt);
    }
  }

  /** A visit whose pair, if due, already has its flag raised sends no
      "entered" embed of a name rule. */
  lemma VisitNoNameEntered(p: Progress, x: (Server, AlertRow), channels: set<int>, failAt: Option<nat>)
    requires NoNameEntered(p.sent)
    requires NameDue(x, channels) ==> Flag(p.states, x.1.alertId, ByName, x.0.name)
    ensures NoNameEntered(Visit(p, x, channels, failAt).sent)
  {
    var (s, row) := x;
    if p.outcome.Done? && Lookup(row.channelId, channels).Resolved? {
      var channel := Lookup(row.channelId, channels).channel;
      var p1 := p.(states := WithEntry(p.states, row.alertId));
      assert Flag(p1.states, row.alertId, ByName, s.name) == Flag(p.states, row.alertId, ByName, s.name);
      CheckNoNameEntered(p1, channel, row, ByName, s, failAt);
      CheckNoNameEntered(Check(p1, channel, row, ByName, s, failAt), channel, row, ByMap, s, failAt);
    }
  }

  /** A run that completes raises the name flag of every due pair it visits,
      provided no two visited pairs share a flag. */
  lemma {:induction false} RunRaises(p: Progress, pairs: seq<(Server, AlertRow)>, all: seq<(Server, AlertRow)>,
                                     channels: set<int>, failAt: Option<nat>)
    requires NameKeyed(all)
    requires forall y :: y in pairs ==> y in all
    requires Run(p, pairs, channels, failAt).outcome.Done?
    ensures NameRaised(Run(p, pairs, channels, failAt).states, pairs, channels)
    decreases |pairs|
  {
    if |pairs| > 0 {
      var init := pairs[..|pairs| - 1];
      var x := pairs[|pairs| - 1];
      var q := Run(p, init, channels, failAt);
      var r := Run(p, pairs, channels, failAt);
      assert pairs == init + [x];
      RunRaises(p, init, all, channels, failAt);
      forall y | y in pairs && NameDue(y, channels) ensures Flag(r.states, y.1.alertId, ByName, y.0.name) {
        VisitNameFlag(q, x, channels, failAt, y.1.alertId, y.0.name);
      }
    }
  }

  /** A run that starts with every due pair's name flag raised keeps them
      raised and sends no "entered" embed of a name rule. */
  lemma {:induction false} RunStaysQuiet(p: Progress, pairs: seq<(Server, AlertRow)>, all: seq<(Server, AlertRow)>,
                                         channels: set<int>, failAt: Option<nat>)
    requires NameKeyed(all)
    requires forall y :: y in pairs ==> y in all
    requires NameRaised(p.states, all, channels)
    requires NoNameEntered(p.sent)
    ensures var r := Run(p, pairs, channels, failAt);
      NameRaised(r.states, all, channels) && NoNameEntered(r.sent)
    decreases |pairs|
  {
    if |pairs| > 0 {
      var init := pairs[..|pairs| - 1];
      var x := pairs[|pairs| - 1];
      var q := Run(p, init, channels, failAt);
      var r := Run(p, pairs, channels, failAt);
      assert pairs == init + [x];
      RunStaysQuiet(p, init, all, channels, failAt);
      VisitNoNameEntered(q, x, channels, failAt);
      forall y | y in all && NameDue(y, channels) ensures Flag(r.states, y.1.alertId, ByName, y.0.name) {
        VisitNameFlag(q, x, channels, failAt, y.1.alertId, y.0.name);
      }
    }
  }

  /** With server names distinct and rule ids distinct, no two visited pairs
      share a name flag. */
  lemma PairsNameKeyed(servers: seq<Server>, rows: seq<AlertRow>)
    requires forall i, j :: 0 <= i < |servers| && 0 <= j < |servers| && i != j ==> servers[i].name != servers[j].name
    requires forall i, j :: 0 <= i < |rows| && 0 <= j < |rows| && i != j ==> rows[i].alertId != rows[j].alertId
    ensures NameKeyed(Pairs(servers, rows))
  {
    PairsMembers(servers, rows);
    forall x, y | x in Pairs(servers, rows) && y in Pairs(servers, rows) && x.1.alertId == y.1.alertId && x.0.name == y.0.name
      ensures x == y
    {
      var a :| 0 <= a < |servers| && servers[a] == x.0;
      var b :| 0 <= b < |servers| && servers[b] == y.0;
      var c :| 0 <= c < |rows| && rows[c] == x.1;
      var d :| 0 <= d < |rows| && rows[d] == y.1;
    }
  }

  /** Polling the same list again after a completed cycle announces no server
      by name a second time: every rule that reached its threshold has its
      flag raised. Server names and rule ids (the table's key) are distinct. */
  lemma NameRerunQuiet(states: States, servers: seq<Server>, rows: seq<AlertRow>, channels: set<int>,
                       failAt1: Option<nat>, failAt2: Option<nat>)
    requires forall i, j :: 0 <= i < |servers| && 0 <= j < |servers| && i != j ==> servers[i].name != servers[j].name
    requires forall i, j :: 0 <= i < |rows| && 0 <= j < |rows| && i != j ==> rows[i].alertId != rows[j].alertId
    requires Cycle(states, servers, rows, channels, failAt1).outcome.Done?
    ensures var first := Cycle(states, servers, rows, channels, failAt1);
      forall m :: m in Cycle(first.states, servers, rows, channels, failAt2).sent ==>
        !(m.Alert? && m.kind == ByName && m.notice == Entered)
  {
    var pairs := Pairs(servers, rows);
    var first := Cycle(states, servers, rows, channels, failAt1);
    PairsNameKeyed(servers, rows);
    RunRaises(Progress(states, [], Done), pairs, pairs, channels, failAt1);
    RunStaysQuiet(Progress(first.states, [], Done), pairs, pairs, channels, failAt2);
  }

  /** A map rule for "M" with threshold 50, posting to channel 7, with the
      warning on and no role; two servers on "M", one at 100 players and one at 10. */
  const MapRule := AlertRow(1, None, Some("M"), Some(50), Some("7"), None, Some(1))
  const FullOnM := Server("A", "M", "", "", 100, 128)
  const EmptyOnM := Server("B", "M", "", "", 10, 128)

  /** The flags of `MapRule` with map "M" raised, and lowered. */
  const MapUp := map[1 := AlertState(map[], map["M" := true])]
  const MapDown := map[1 := AlertState(map[], map["M" := false])]

  /** From no flags or a lowered one, the full server announces the map. */
  lemma MapRuleEnters(states: States)
    requires states == map[] || states == MapDown
    ensures Visit(Progress(states, [], Done), (FullOnM, MapRule), {7}, None) ==
      Progress(MapUp, [Alert(7, 1, ByMap, Entered, FullOnM)], Done)
  {
    assert ParseInt("7") == Some(7);
    assert EqualsIgnoringCase("M", "M");
    assert !Matches(ByName, MapRule, FullOnM) && Matches(ByMap, MapRule, FullOnM);
    assert !Flag(WithEntry(states, 1), 1, ByMap, "M");
    assert map["M" := false]["M" := true] == map["M" := true];
  }

  /** With the map's flag raised, the empty server lowers it with a "below" embed. */
  lemma MapRuleDrops(sent: seq<Message>)
    ensures Visit(Progress(MapUp, sent, Done), (EmptyOnM, MapRule), {7}, None) ==
      Progress(MapDown, sent + [Alert(7, 1, ByMap, Exited, EmptyOnM)], Done)
  {
    assert ParseInt("7") == Some(7);
    assert EqualsIgnoringCase("M", "M");
    assert !Matches(ByName, MapRule, EmptyOnM) && Matches(ByMap, MapRule, EmptyOnM);
    assert Flag(MapUp, 1, ByMap, "M") && Truthy(MapRule.belowWarning);
    assert map["M" := true]["M" := false] == map["M" := false];
  }

  /** A map rule's flags are shared by every server on the map: with one
      server on the map at the threshold and one below it, the rule
      announces the map as entered and then as below in every cycle, the
      second cycle repeating the first. */
  lemma MapRuleRepeats()
    ensures var first := Cycle(map[], [FullOnM, EmptyOnM], [MapRule], {7}, None);
      var second := Cycle(first.states, [FullOnM, EmptyOnM], [MapRule], {7}, None);
      && first.sent == [Alert(7, 1, ByMap, Entered, FullOnM), Alert(7, 1, ByMap, Exited, EmptyOnM)]
      && second.sent == first.sent
  {
    var a, b, row := FullOnM, EmptyOnM, MapRule;
    assert Pairs([a, b], [row]) == [(a, row), (b, row)] by {
      assert [row][..0] == [];
      assert Across(a, [row]) == [(a, row)];
      assert Across(b, [row]) == [(b, row)];
      assert [a, b][..1] == [a] && [a][..0] == [];
      assert Pairs([a], [row]) == [(a, row)];
    }
    var sent := [Alert(7, 1, ByMap, Entered, a)] + [Alert(7, 1, ByMap, Exited, b)];
    forall states | states == map[] || states == MapDown
      ensures Cycle(states, [a, b], [row], {7}, None) == Progress(MapDown, sent, Done)
    {
      var p0 := Progress(states, [], Done);
      assert [] + [(a, row)] == [(a, row)] && [(a, row)] + [(b, row)] == [(a, row), (b, row)];
      RunSnoc(p0, [], (a, row), {7}, None);
      RunSnoc(p0, [(a, row)], (b, row), {7}, None);
      MapRuleEnters(states);
      MapRuleDrops([Alert(7, 1, ByMap, Entered, a)]);
    }
  }
}
