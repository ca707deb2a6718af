/** The polling loop of `monitor_api`, one cycle at a time, over the
    `alert_states` dictionary it keeps between cycles. */
module Monitor {
  import opened Basics
  import opened Records
  import opened Evaluation

  class AlertMonitor {
    /** `alert_states`. */
    var alertStates: States

    constructor()
      ensures alertStates == map[]
    {
      alertStates := map[];
    }

    /** Sends the role mention when the rule pings, then the embed, then
        records the new flag; a send that raises ends the cycle. */
    method Announce(kind: Kind, notice: Notice, channel: int, row: AlertRow, server: Server,
                    failAt: Option<nat>, sent0: seq<Message>)
      returns (sent: seq<Message>, outcome: Outcome)
      modifies this
      ensures Progress(alertStates, sent, outcome) ==
        Notify(Progress(old(alertStates), sent0, Done), channel, row, kind, notice, server, failAt)
    {
      sent := sent0;
      if PingsRole(row.pingRoleId) {
        if failAt == Some(|sent|) {
          return sent, Aborted(SendFailed);
        }
        sent := sent + [Ping(channel, row.pingRoleId.value)];
      }
      if failAt == Some(|sent|) {
        return sent, Aborted(SendFailed);
      }
      sent := sent + [Alert(channel, row.alertId, kind, notice, server)];
      alertStates := SetFlag(alertStates, row.alertId, kind, Key(kind, server), notice == Entered);
      outcome := Done;
    }

    /** One "Check server name alerts" or "Check map alerts" block. */
    method CheckAlert(kind: Kind, channel: int, row: AlertRow, server: Server,
                      failAt: Option<nat>, sent0: seq<Message>)
      returns (sent: seq<Message>, outcome: Outcome)
      modifies this
      ensures Progress(alertStates, sent, outcome) ==
        Check(Progress(old(alertStates), sent0, Done), channel, row, kind, server, failAt)
    {
      sent, outcome := sent0, Done;
      if Matches(kind, row, server) {
        if row.minPlayers.None? {
          return sent, Aborted(MissingThreshold);
        }
        var key := Key(kind, server);
        if server.players >= row.minPlayers.value {
          if !Flag(alertStates, row.alertId, kind, key) {
            sent, outcome := Announce(kind, Entered, channel, row, server, failAt, sent);
          }
        } else if Truthy(row.belowWarning) {
          if Flag(alertStates, row.alertId, kind, key) {
            sent, outcome := Announce(kind, Exited, channel, row, server, failAt, sent);
          }
        }
      }
    }

    /** The body of the inner loop for one server and one rule: skip the rule
        when its channel cannot be found, create the alert's entry, then run
        the name check and the map check. */
    method VisitPair(server: Server, row: AlertRow, channels: set<int>, failAt: Option<nat>, sent0: seq<Message>)
      returns (sent: seq<Message>, outcome: Outcome)
      modifies this
      ensures Progress(alertStates, sent, outcome) ==
        Visit(Progress(old(alertStates), sent0, Done), (server, row), channels, failAt)
    {
      sent, outcome := sent0, Done;
      var lookup := Lookup(row.channelId, channels);
      if lookup.Invalid? {
        return sent, Aborted(BadChannelId);
      }
      if lookup.Resolved? {
        if row.alertId !in alertStates {
          alertStates := alertStates[row.alertId := Fresh];
        }
        sent, outcome := CheckAlert(ByName, lookup.channel, row, server, failAt, sent);
        if outcome.Aborted? {
          return;
        }
        sent, outcome := CheckAlert(ByMap, lookup.channel, row, server, failAt, sent);
      }
    }

    /** The body of the `try` block once the server list and the rows are
        loaded: every server against every rule. The result is the messages
        sent and whether an exception ended the cycle early. */
    method PollCycle(servers: seq<Server>, rows: seq<AlertRow>, channels: set<int>, failAt: Option<nat>)
      returns (sent: seq<Message>, outcome: Outcome)
      modifies this
      ensures Progress(alertStates, sent, outcome) == Cycle(old(alertStates), servers, rows, channels, failAt)
    {
      ghost var start := Progress(alertStates, [], Done);
      sent := [];
      var i := 0;
      while i < |servers|
        invariant 0 <= i <= |servers|
        invariant Progress(alertStates, sent, Done) == Run(start, Pairs(servers[..i], rows), channels, failAt)
      {
        var server := servers[i];
        var j := 0;
        assert Pairs(servers[..i], rows) + Across(server, rows[..0]) == Pairs(servers[..i], rows);
        while j < |rows|
          invariant 0 <= j <= |rows|
          invariant Progress(alertStates, sent, Done) ==
            Run(start, Pairs(servers[..i], rows) + Across(server, rows[..j]), channels, failAt)
        {
          NextPair(start, servers, rows, i, j, channels, failAt);
          var result;
          sent, result := VisitPair(server, rows[j], channels, failAt, sent);
          if result.Aborted? {
            AbortEndsCycle(start, servers, rows, i, j, channels, failAt);
            return sent, result;
          }
          j := j + 1;
        }
        PairsSnoc(servers, rows, i);
        assert rows[..|rows|] == rows;
        i := i + 1;
      }
      assert servers[..|servers|] == servers;
      outcome := Done;
    }
  }
}
