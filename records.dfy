/** The records the bot works on: a live server as the public server list
    reports it, an alert rule as a raw row of the `configs` table, and the
    dictionary `load_configs` turns such a row into. */
module Records {
  import opened Basics
  import opened Text

  /** One entry of the server list: `Name`, `Map`, `Gamemode`, `Region`,
      `Players`, `MaxPlayers`. */
  datatype Server = Server(
    name: string,
    mapName: string,
    gamemode: string,
    region: string,
    players: int,
    maxPlayers: int)

  /** One row of the `configs` table, column by column as SQLite returns it:
      `channel_id` and `ping_role_id` are TEXT columns holding decimal ids,
      `below_warning_enabled` an INTEGER column; any column but the key may be NULL. */
  datatype AlertRow = AlertRow(
    alertId: int,
    alertName: Option<string>,
    alertMap: Option<string>,
    minPlayers: Option<int>,
    channelId: Option<string>,
    pingRoleId: Option<string>,
    belowWarning: Option<int>)

  /** Python truthiness of a nullable INTEGER column. */
  predicate Truthy(column: Option<int>) {
    column.Some? && column.value != 0
  }

  /** The dictionary built by `load_configs` for one row. */
  datatype Config = Config(
    alertId: int,
    alertName: Option<string>,
    alertMap: Option<string>,
    minPlayers: Option<int>,
    channelId: Option<int>,
    pingRoleId: Option<int>,
    belowWarningEnabled: bool)

  /** `int(column) if column else None`: the outer `None` is the `ValueError`
      that `int` raises on text that is not a number. */
  function OptionalId(column: Option<string>): (r: Option<Option<int>>)
    ensures r == Some(None) <==> column.None? || column.value == ""
    ensures forall n :: r == Some(Some(n)) <==> column.Some? && column.value != "" && ParseInt(column.value) == Some(n)
  {
    if column.None? || column.value == "" then Some(None)
    else match ParseInt(column.value)
      case None => None
      case Some(n) => Some(Some(n))
  }

  /** The row conversion of `load_configs`; `None` when converting an id raises. */
  function LoadConfig(row: AlertRow): (r: Option<Config>)
    ensures r.Some? <==> OptionalId(row.channelId).Some? && OptionalId(row.pingRoleId).Some?
    ensures r.Some? ==>
      && r.value.alertId == row.alertId
      && r.value.alertName == row.alertName
      && r.value.alertMap == row.alertMap
      && r.value.minPlayers == row.minPlayers
      && Some(r.value.channelId) == OptionalId(row.channelId)
      && Some(r.value.pingRoleId) == OptionalId(row.pingRoleId)
      && r.value.belowWarningEnabled == Truthy(row.belowWarning)
  {
    match (OptionalId(row.channelId), OptionalId(row.pingRoleId))
    case (Some(channel), Some(role)) =>
      Some(Config(row.alertId, row.alertName, row.alertMap, row.minPlayers,
                  channel, role, Truthy(row.belowWarning)))
    case _ => None
  }

  /** `load_configs` over the selected rows: every row converted, in order, or
      `None` when one of them raises. */
  function LoadConfigs(rows: seq<AlertRow>): (r: Option<seq<Config>>)
    ensures r.Some? <==> forall i :: 0 <= i < |rows| ==> LoadConfig(rows[i]).Some?
    ensures r.Some? ==> |r.value| == |rows|
    ensures r.Some? ==> forall i :: 0 <= i < |rows| ==> Some(r.value[i]) == LoadConfig(rows[i])
    decreases |rows|
  {
    if |rows| == 0 then Some([])
    else
      match (LoadConfigs(rows[..|rows| - 1]), LoadConfig(rows[|rows| - 1]))
      case (Some(init), Some(last)) => Some(init + [last])
      case _ => None
  }

  /** A row as `setup` stores it, ids written with `str(...)`, loads back with
      the very same ids. */
  lemma LoadStoredRow(alertId: int, name: Option<string>, mapName: Option<string>,
                      minPlayers: Option<int>, channel: int, role: Option<int>, below: bool)
    ensures var row := AlertRow(alertId, name, mapName, minPlayers, Some(ShowInt(channel)),
                                if role.Some? then Some(ShowInt(role.value)) else None,
                                Some(if below then 1 else 0));
            LoadConfig(row) == Some(Config(alertId, name, mapName, minPlayers, Some(channel), role, below))
  {
    ParseShowInt(channel);
    NatDigitsValue(if channel < 0 then -channel else channel);
    if role.Some? {
      ParseShowInt(role.value);
      NatDigitsValue(if role.value < 0 then -role.value else role.value);
    }
  }
}
