/** The filter behind the `listservers` command: which servers of the live
    list match the caller's optional criteria. */
module Listing {
  import opened Basics
  import opened Text
  import opened Records

  /** The command's parameters; `None` means "leave blank to ignore". */
  datatype ServerQuery = ServerQuery(
    playersRequired: int,
    name: Option<string>,
    mapName: Option<string>,
    region: Option<string>,
    gamemode: Option<string>)

  /** A server is listed when it has enough players, its name contains the
      name filter and its map, region and gamemode equal their filters, all
      ignoring case; a filter given as `None` is not applied. */
  predicate Qualifies(q: ServerQuery, s: Server) {
    && s.players >= q.playersRequired
    && (q.name.None? || ContainsIgnoringCase(q.name.value, s.name))
    && (q.mapName.None? || EqualsIgnoringCase(q.mapName.value, s.mapName))
    && (q.region.None? || EqualsIgnoringCase(q.region.value, s.region))
    && (q.gamemode.None? || EqualsIgnoringCase(q.gamemode.value, s.gamemode))
  }

  /** `a` is `b` with some elements left out, the rest kept in order. */
  predicate IsSubsequence<T(==)>(a: seq<T>, b: seq<T>)
    decreases |b|
  {
    |a| == 0 ||
    (|b| > 0 &&
     ((a[|a| - 1] == b[|b| - 1] && IsSubsequence(a[..|a| - 1], b[..|b| - 1])) ||
      IsSubsequence(a, b[..|b| - 1])))
  }

  /** The servers the command lists, in the order of the server list. */
  function ListServers(servers: seq<Server>, q: ServerQuery): (r: seq<Server>)
    ensures IsSubsequence(r, servers)
    ensures forall s :: s in r ==> Qualifies(q, s)
    ensures forall s :: s in servers && Qualifies(q, s) ==> s in r
    ensures forall s :: multiset(r)[s] == if Qualifies(q, s) then multiset(servers)[s] else 0
    decreases |servers|
  {
    if |servers| == 0 then []
    else
      var init := servers[..|servers| - 1];
      var last := servers[|servers| - 1];
      assert servers == init + [last];
      var kept := ListServers(init, q);
      if Qualifies(q, last) then
        assert (kept + [last])[..|kept|] == kept;
        kept + [last]
      else
        kept
  }
}
