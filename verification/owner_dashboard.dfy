/** The owner-dashboard logic of `src/App.tsx`: loading the owner's clubs
    into a list and an index keyed by `String(short_id)`, and the memo cache
    of per-club stats. Backend replies are parameters; a fetch is split into
    a start and a finish. */
module OwnerDashboard {
  import opened Js
  import opened Text
  import opened Types
  import OwnerSelector

  const ClubsUnavailable: string := "Не удалось загрузить список клубов."
  const ClubsUnavailableRetry: string := "Не удалось загрузить список клубов. Попробуйте позже."
  const StatsForbidden: string := "Недостаточно прав для просмотра данных клуба."
  const StatsUnavailable: string := "Не удалось загрузить данные клуба. Попробуйте позже."

  datatype OwnerState = OwnerState(
    clubs: seq<OwnerClub>,
    byShortId: map<string, OwnerClub>,
    loaded: bool,
    selectorMessage: Option<string>,
    cache: map<string, OwnerStats>,
    selected: Option<int>,
    stats: Option<OwnerStats>,
    statsLoading: bool)

  /** The record key of a club id, `String(id)`. */
  function Key(id: int): string {
    IntToString(id)
  }

  /** The key of every club, in list order. */
  function ClubKeys(clubs: seq<OwnerClub>): (keys: seq<string>)
    ensures |keys| == |clubs| && forall i :: 0 <= i < |clubs| ==> keys[i] == Key(clubs[i].shortId)
  {
    seq(|clubs|, i requires 0 <= i < |clubs| => Key(clubs[i].shortId))
  }

  /** Stores each club under its key, in list order: `IndexOn(clubs,
      keys)[keys[i]] = clubs[i]` for `i = 0, 1, …`. */
  function IndexOn(clubs: seq<OwnerClub>, keys: seq<string>): (m: map<string, OwnerClub>)
    requires |keys| == |clubs|
    ensures forall i :: 0 <= i < |keys| ==> keys[i] in m
    ensures forall k :: k in m ==> k in keys
  {
    if clubs == [] then map[]
    else
      var n := |clubs| - 1;
      IndexOn(clubs[..n], keys[..n])[keys[n] := clubs[n]]
  }

  /** `clubs.forEach(club => byShortId[String(club.short_id)] = club)`:
      the index has exactly the keys of the listed clubs. */
  function IndexByShortId(clubs: seq<OwnerClub>): (m: map<string, OwnerClub>)
    ensures forall i :: 0 <= i < |clubs| ==> Key(clubs[i].shortId) in m
    ensures forall k :: k in m ==> exists i :: 0 <= i < |clubs| && Key(clubs[i].shortId) == k
  {
    var keys := ClubKeys(clubs);
    var m := IndexOn(clubs, keys);
    assert forall k :: k in m ==> exists i :: 0 <= i < |keys| && keys[i] == k;
    m
  }

  /** Later clubs overwrite earlier ones: under a key sits the last club
      stored with it. */
  lemma {:induction false} IndexOnHoldsLast(clubs: seq<OwnerClub>, keys: seq<string>, i: int)
    requires |keys| == |clubs| && 0 <= i < |clubs|
    requires forall j :: i < j < |clubs| ==> keys[j] != keys[i]
    ensures IndexOn(clubs, keys)[keys[i]] == clubs[i]
  {
    var n := |clubs| - 1;
    if i < n {
      IndexOnHoldsLast(clubs[..n], keys[..n], i);
    }
  }

  /** Later clubs overwrite earlier ones: under a club's key sits that club
      whenever no later club carries the same key. */
  lemma IndexHoldsLastClub(clubs: seq<OwnerClub>, i: int)
    requires 0 <= i < |clubs|
    requires forall j :: i < j < |clubs| ==> Key(clubs[j].shortId) != Key(clubs[i].shortId)
    ensures IndexByShortId(clubs)[Key(clubs[i].shortId)] == clubs[i]
  {
    IndexOnHoldsLast(clubs, ClubKeys(clubs), i);
  }

  /** Ids are distinct keys, so a club list without repeated ids loses no
      club in the index: each club is found under its own key. */
  lemma IndexKeepsDistinctClubs(clubs: seq<OwnerClub>)
    requires forall i, j :: 0 <= i < j < |clubs| ==> clubs[i].shortId != clubs[j].shortId
    ensures forall i :: 0 <= i < |clubs| ==> IndexByShortId(clubs)[Key(clubs[i].shortId)] == clubs[i]
  {
    forall i | 0 <= i < |clubs|
      ensures IndexByShortId(clubs)[Key(clubs[i].shortId)] == clubs[i]
    {
      forall j | i < j < |clubs|
        ensures Key(clubs[j].shortId) != Key(clubs[i].shortId)
      {
        if Key(clubs[j].shortId) == Key(clubs[i].shortId) {
          IntToStringInjective(clubs[j].shortId, clubs[i].shortId);
        }
      }
      IndexHoldsLastClub(clubs, i);
    }
  }

  /** The owner-clubs endpoint's answer: thrown (network or JSON failure),
      or a reply with its HTTP status, `allowed` flag, `reason`, and `clubs`
      when it is an array. */
  datatype ClubsReply =
    | ClubsThrew
    | ClubsBody(ok: bool, allowed: bool, reason: Option<string>, clubs: Option<seq<OwnerClub>>)

  /** `loadOwnerClubs`: without auth data nothing happens; any failure
      leaves an empty list, marks the clubs loaded and sets a message; a
      success stores the list and its index and clears the message. */
  function LoadOwnerClubs(s: OwnerState, authData: string, reply: ClubsReply): (r: OwnerState)
    ensures authData == [] ==> r == s
    ensures authData != [] ==> r.loaded
    ensures r.cache == s.cache && r.selected == s.selected && r.stats == s.stats
    ensures authData != [] && !(reply.ClubsBody? && reply.ok && reply.allowed) ==>
              r.clubs == [] && r.byShortId == map[] && TruthyOptStr(r.selectorMessage)
    ensures authData != [] && reply.ClubsBody? && reply.ok && reply.allowed ==>
              && r.clubs == reply.clubs.GetOr([])
              && r.byShortId == IndexByShortId(r.clubs)
              && r.selectorMessage.None?
  {
    if authData == [] then s
    else match reply
      case ClubsThrew =>
        s.(clubs := [], byShortId := map[], loaded := true, selectorMessage := Some(ClubsUnavailableRetry))
      case ClubsBody(ok, allowed, reason, clubs) =>
        if !ok || !allowed then
          s.(clubs := [], byShortId := map[], loaded := true, selectorMessage := Some(OrElse(reason, ClubsUnavailable)))
        else
          var list := clubs.GetOr([]);
          s.(clubs := list, byShortId := IndexByShortId(list), loaded := true, selectorMessage := None)
  }

  /** Every cached entry is stats the backend allowed. */
  predicate CacheHoldsAllowed(s: OwnerState) {
    forall k :: k in s.cache ==> s.cache[k].allowed
  }

  /** `fetchOwnerStats(id)` up to the awaited request. A falsy id or a load
      in progress is a no-op; a cache hit shows the cached stats without a
      request; a miss clears the stats, marks loading and requests (the
      second component). */
  function FetchStatsStart(s: OwnerState, id: int): (r: (OwnerState, bool))
    ensures id == 0 || s.statsLoading ==> r == (s, false)
    ensures id != 0 && !s.statsLoading && Key(id) in s.cache ==>
              r == (s.(selected := Some(id), stats := Some(s.cache[Key(id)]), selectorMessage := None), false)
    ensures id != 0 && !s.statsLoading && Key(id) !in s.cache ==>
              r == (s.(selected := Some(id), statsLoading := true, stats := None), true)
    ensures r.0.cache == s.cache
  {
    if id == 0 || s.statsLoading then (s, false)
    else
      var key := Key(id);
      var s1 := s.(selected := Some(id));
      if key in s.cache then (s1.(stats := Some(s.cache[key]), selectorMessage := None), false)
      else (s1.(statsLoading := true, stats := None), true)
  }

  /** The owner-insights endpoint's answer. */
  datatype StatsReply = StatsThrew | StatsBody(ok: bool, data: OwnerStats)

  /** The rest of `fetchOwnerStats(id)`: only an allowed reply is cached;
      no entry is ever removed; loading ends whatever the outcome. */
  function FetchStatsFinish(s: OwnerState, id: int, reply: StatsReply): (r: OwnerState)
    ensures !r.statsLoading
    ensures s.cache.Keys <= r.cache.Keys
    ensures reply.StatsBody? && reply.ok && reply.data.allowed ==>
              r.cache == s.cache[Key(id) := reply.data] && r.stats == Some(reply.data) && r.selectorMessage.None?
    ensures !(reply.StatsBody? && reply.ok && reply.data.allowed) ==> r.cache == s.cache
    ensures reply.StatsBody? && !(reply.ok && reply.data.allowed) ==>
              r.stats == Some(reply.data) && r.selectorMessage == Some(OrElse(reply.data.reason, StatsForbidden))
    ensures reply.StatsThrew? ==> r.stats.None? && r.selectorMessage == Some(StatsUnavailable)
    ensures CacheHoldsAllowed(s) ==> CacheHoldsAllowed(r)
  {
    match reply
    case StatsThrew =>
      s.(stats := None, selectorMessage := Some(StatsUnavailable), statsLoading := false)
    case StatsBody(ok, data) =>
      if ok && data.allowed then
        s.(cache := s.cache[Key(id) := data], stats := Some(data), selectorMessage := None, statsLoading := false)
      else
        s.(stats := Some(data), selectorMessage := Some(OrElse(data.reason, StatsForbidden)), statsLoading := false)
  }

  /** `handleOwnerClubSelect(id)`: records the selection and shows cached
      stats for it, or none. */
  function SelectClub(s: OwnerState, id: Option<int>): (r: OwnerState)
    ensures r.selected == id && r.cache == s.cache && r.statsLoading == s.statsLoading
    ensures TruthyOptInt(id) && Key(id.value) in s.cache ==>
              r.stats == Some(s.cache[Key(id.value)]) && r.selectorMessage.None?
    ensures !(TruthyOptInt(id) && Key(id.value) in s.cache) ==>
              r.stats.None? && r.selectorMessage == s.selectorMessage
  {
    if TruthyOptInt(id) && Key(id.value) in s.cache then
      s.(selected := id, stats := Some(s.cache[Key(id.value)]), selectorMessage := None)
    else s.(selected := id, stats := None)
  }

  /** `handleOwnerClubOpen`: fetches stats for a truthy selection. */
  function OpenClub(s: OwnerState): (r: (OwnerState, bool))
    ensures !TruthyOptInt(s.selected) ==> r == (s, false)
    ensures TruthyOptInt(s.selected) ==> r == FetchStatsStart(s, s.selected.value)
  {
    if TruthyOptInt(s.selected) then FetchStatsStart(s, s.selected.value) else (s, false)
  }

  /** Opening a club whose stats were fetched once shows them again without
      another request. */
  lemma SecondOpenIsServedFromCache(s: OwnerState, id: int, data: OwnerStats)
    requires id != 0 && !s.statsLoading && Key(id) !in s.cache && data.allowed
    ensures var s1 := FetchStatsStart(s, id).0;
            var s2 := FetchStatsFinish(s1, id, StatsBody(true, data));
            FetchStatsStart(s2, id) == (s2.(selected := Some(id), stats := Some(data), selectorMessage := None), false)
  {
  }

  /** No operation of the dashboard removes a cache entry or lets a
      refused reply into the cache. */
  lemma CacheInvariantPreserved(s: OwnerState, id: int, sel: Option<int>, authData: string,
                                clubsReply: ClubsReply, statsReply: StatsReply)
    requires CacheHoldsAllowed(s)
    ensures CacheHoldsAllowed(LoadOwnerClubs(s, authData, clubsReply))
    ensures CacheHoldsAllowed(FetchStatsStart(s, id).0)
    ensures CacheHoldsAllowed(FetchStatsFinish(s, id, statsReply))
    ensures CacheHoldsAllowed(SelectClub(s, sel))
    ensures CacheHoldsAllowed(OpenClub(s).0)
    ensures s.cache.Keys <= FetchStatsFinish(s, id, statsReply).cache.Keys
  {
  }

  /** Once a load with auth data has settled, whatever its outcome, the
      owner card is rendered. */
  lemma CardRendersAfterLoad(s: OwnerState, authData: string, reply: ClubsReply)
    requires authData != []
    ensures var r := LoadOwnerClubs(s, authData, reply);
            !OwnerSelector.RendersNothing(r.loaded, r.selectorMessage)
  {
  }

  /** The select element can hold the id 0: the button is then enabled,
      but opening the club requests nothing and changes nothing. */
  lemma ZeroSelectionOpensNothing(s: OwnerState)
    requires s.selected == Some(0) && !s.statsLoading
    ensures !OwnerSelector.ButtonDisabled(s.selected, s.statsLoading)
    ensures OpenClub(s) == (s, false)
  {
  }

  /** A refused stats reply is kept as the current stats, but the stats
      card stays hidden and the reason is shown as the hint. */
  lemma RefusedStatsStayHidden(s: OwnerState, id: int, data: OwnerStats, clubs: seq<OwnerClub>)
    requires !data.allowed
    ensures var r := FetchStatsFinish(s, id, StatsBody(true, data));
            && r.stats == Some(data)
            && !OwnerSelector.ShowsStatsCard(r.stats)
            && OwnerSelector.Hint(clubs, r.selectorMessage) == OrElse(data.reason, StatsForbidden)
  {
  }
}
