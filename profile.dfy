/**
 * backend/auth/core/models/user/profile.py: the profile row, the ORM object the service mutates,
 * and the visit-history tracker that runs before every update of a profile.
 */
module Profiles {
  import opened Wrappers
  import opened Base
  import opened Schemas
  import Json

  /** `key` is String(32), `ip` String(45), `user_agent` String(255), `avatar` String(300). */
  const KEY_LEN := 32
  const IP_LEN := 45
  const USER_AGENT_LEN := 255
  const AVATAR_LEN := 300

  /** One element of `history`: `{ip, user_agent, visit_date}`. */
  datatype HistoryEntry = HistoryEntry(ip: string, userAgent: string, visitDate: Time)

  /** A row of the `profiles` table; a NULL `history` is `None`. */
  datatype ProfileRow = ProfileRow(
    createdDate: Time, visitDate: Time, key: string, cookieData: seq<CookiesData>,
    avatar: Option<string>, locations: seq<Json.Value>, ip: string, userAgent: string,
    history: Option<seq<HistoryEntry>>)

  /** The row satisfies the column widths, so the database accepts it. */
  predicate ColumnsFit(p: ProfileRow)
  {
    |p.key| <= KEY_LEN && |p.ip| <= IP_LEN && |p.userAgent| <= USER_AGENT_LEN
    && (p.avatar.Some? ==> |p.avatar.value| <= AVATAR_LEN)
  }

  /**
   * A row as the service inserts it: the JSON list columns take their default `[]` unless given,
   * and no update has run, so the history is empty.
   */
  function NewProfileRow(key: string, cookieData: seq<CookiesData>, ip: string, userAgent: string, now: Time)
    : (p: ProfileRow)
    ensures p.history == Some([]) && p.key == key && p.cookieData == cookieData
    ensures p.ip == ip && p.userAgent == userAgent && p.createdDate == now && p.visitDate == now
    ensures p.avatar.None? && p.locations == []
  {
    ProfileRow(now, now, key, cookieData, None, [], ip, userAgent, Some([]))
  }

  predicate SameOrigin(e: HistoryEntry, ip: string, userAgent: string)
  {
    e.ip == ip && e.userAgent == userAgent
  }

  /** A history with at most one entry per (ip, user_agent) pair. */
  ghost predicate UniqueOrigins(h: seq<HistoryEntry>)
  {
    forall i, j :: 0 <= i < j < |h| ==> !SameOrigin(h[i], h[j].ip, h[j].userAgent)
  }

  /** The index of the first entry with this (ip, user_agent), if there is one. */
  function FirstMatch(h: seq<HistoryEntry>, ip: string, userAgent: string): (r: Option<nat>)
    ensures r.Some? ==> r.value < |h| && SameOrigin(h[r.value], ip, userAgent)
    ensures r.Some? ==> forall j :: 0 <= j < r.value ==> !SameOrigin(h[j], ip, userAgent)
    ensures r.None? <==> forall j :: 0 <= j < |h| ==> !SameOrigin(h[j], ip, userAgent)
  {
    if |h| == 0 then None
    else if SameOrigin(h[0], ip, userAgent) then Some(0)
    else match FirstMatch(h[1..], ip, userAgent)
      case None => None
      case Some(i) => Some(i + 1)
  }

  /**
   * The history after a visit from (ip, user_agent) at `now`: the first entry with that pair gets
   * the new visit date, or a new entry is appended.
   */
  function RecordVisit(h: seq<HistoryEntry>, ip: string, userAgent: string, now: Time)
    : (r: seq<HistoryEntry>)
    ensures HistoryEntry(ip, userAgent, now) in r
  {
    match FirstMatch(h, ip, userAgent)
    case Some(i) =>
      var r := h[i := h[i].(visitDate := now)];
      assert r[i] == HistoryEntry(ip, userAgent, now);
      r
    case None => h + [HistoryEntry(ip, userAgent, now)]
  }

  /** A NULL history counts as an empty one. */
  function HistoryOrEmpty(h: Option<seq<HistoryEntry>>): seq<HistoryEntry>
  {
    h.GetOr([])
  }

  /** A row after the `before_update` hook: it records the visit of the row's own ip and user agent. */
  function AfterUpdateHook(p: ProfileRow, now: Time): (r: ProfileRow)
    ensures r.visitDate == now && r.history.Some?
    ensures HistoryEntry(p.ip, p.userAgent, now) in r.history.value
    ensures r.(visitDate := p.visitDate, history := p.history) == p
  {
    p.(visitDate := now, history := Some(RecordVisit(HistoryOrEmpty(p.history), p.ip, p.userAgent, now)))
  }

  /** The hook touches only the visit date and the history, so the key and the column widths stay. */
  lemma HookKeepsColumns(p: ProfileRow, now: Time)
    ensures AfterUpdateHook(p, now).key == p.key
    ensures ColumnsFit(AfterUpdateHook(p, now)) <==> ColumnsFit(p)
  {
  }

  /**
   * A row flushed as new and then dirtied in the same transaction commits with one history entry:
   * the visit of its own client at `now`.
   */
  lemma HookOnNewRow(key: string, cookieData: seq<CookiesData>, ip: string, userAgent: string, now: Time)
    ensures var p := NewProfileRow(key, cookieData, ip, userAgent, now);
      AfterUpdateHook(p, now) == p.(history := Some([HistoryEntry(ip, userAgent, now)]))
  {
    assert FirstMatch([], ip, userAgent).None?;
    assert RecordVisit([], ip, userAgent, now) == [HistoryEntry(ip, userAgent, now)];
  }

  /** The history grows by one entry exactly when no entry has the visiting pair. */
  lemma RecordVisitLength(h: seq<HistoryEntry>, ip: string, userAgent: string, now: Time)
    ensures |RecordVisit(h, ip, userAgent, now)| == |h| + 1 <==>
              forall j :: 0 <= j < |h| ==> !SameOrigin(h[j], ip, userAgent)
    ensures |RecordVisit(h, ip, userAgent, now)| == |h| <==>
              exists j :: 0 <= j < |h| && SameOrigin(h[j], ip, userAgent)
  {
  }

  /**
   * When a matching entry exists, only the first one changes and only its visit date; otherwise
   * the old entries stay in order and the new one is last.
   */
  lemma RecordVisitFrame(h: seq<HistoryEntry>, ip: string, userAgent: string, now: Time)
    ensures var r := RecordVisit(h, ip, userAgent, now);
      match FirstMatch(h, ip, userAgent)
      case Some(i) =>
        |r| == |h| && r[i] == h[i].(visitDate := now)
        && (forall j :: 0 <= j < |h| && j != i ==> r[j] == h[j])
      case None =>
        r[..|h|] == h && r[|h|] == HistoryEntry(ip, userAgent, now)
  {
  }

  /** A history without duplicate (ip, user_agent) pairs keeps that property after a visit. */
  lemma {:induction false} RecordVisitKeepsOriginsUnique(
    h: seq<HistoryEntry>, ip: string, userAgent: string, now: Time)
    requires UniqueOrigins(h)
    ensures UniqueOrigins(RecordVisit(h, ip, userAgent, now))
  {
    var r := RecordVisit(h, ip, userAgent, now);
    match FirstMatch(h, ip, userAgent)
    case Some(k) =>
      assert |r| == |h|;
      forall i, j | 0 <= i < j < |r|
        ensures !SameOrigin(r[i], r[j].ip, r[j].userAgent)
      {
        assert SameOrigin(r[i], r[j].ip, r[j].userAgent) <==> SameOrigin(h[i], h[j].ip, h[j].userAgent);
      }
    case None =>
      forall i, j | 0 <= i < j < |r|
        ensures !SameOrigin(r[i], r[j].ip, r[j].userAgent)
      {
        if j < |h| {
          assert r[i] == h[i] && r[j] == h[j];
        } else {
          assert r[i] == h[i] && r[j] == HistoryEntry(ip, userAgent, now);
        }
      }
  }

  /** The mapped `Profile` object: a profile row loaded into memory, whose fields the service assigns. */
  class Profile {
    var createdDate: Time
    var visitDate: Time
    var key: string
    var cookieData: seq<CookiesData>
    var avatar: Option<string>
    var locations: seq<Json.Value>
    var ip: string
    var userAgent: string
    var history: Option<seq<HistoryEntry>>

    /** The row these fields would be written as. */
    function Row(): ProfileRow
      reads this
    {
      ProfileRow(createdDate, visitDate, key, cookieData, avatar, locations, ip, userAgent, history)
    }

    /** Loads a row into a fresh object. */
    constructor Load(row: ProfileRow)
      ensures Row() == row
    {
      createdDate, visitDate, key, cookieData := row.createdDate, row.visitDate, row.key, row.cookieData;
      avatar, locations, ip, userAgent, history := row.avatar, row.locations, row.ip, row.userAgent, row.history;
    }

    /**
     * `add_history`: sets the visit date to `now` and scans the history for the current
     * (ip, user_agent); the first match gets the new visit date, otherwise an entry is appended.
     */
    method AddHistory(now: Time)
      modifies this
      ensures Row() == AfterUpdateHook(old(Row()), now)
    {
      visitDate := now;
      if history.None? {
        history := Some([]);
      }
      var h := history.value;
      ghost var h0 := h;
      var recordFound := false;
      var i := 0;
      while i < |h| && !recordFound
        invariant 0 <= i <= |h| == |h0|
        invariant !recordFound ==> h == h0 && forall j :: 0 <= j < i ==> !SameOrigin(h0[j], ip, userAgent)
        invariant recordFound ==> FirstMatch(h0, ip, userAgent) == Some(i) && h == h0[i := h0[i].(visitDate := now)]
        decreases |h| - i, !recordFound
      {
        if h[i].ip == ip && h[i].userAgent == userAgent {
          h := h[i := h[i].(visitDate := now)];
          recordFound := true;
        } else {
          i := i + 1;
        }
      }
      if !recordFound {
        h := h + [HistoryEntry(ip, userAgent, now)];
      }
      history := Some(h);
    }
  }

  /** The `before_update` listener: every flushed update of a profile first records the visit. */
  method BeforeUpdateListener(target: Profile, now: Time)
    modifies target
    ensures target.Row() == AfterUpdateHook(old(target.Row()), now)
  {
    target.AddHistory(now);
  }
}
