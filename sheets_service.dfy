/**
 * The participant cache of services/sheetsService.js: a read-through cache over
 * the sheet, with one map from ticket id to record and one refresh timestamp.
 * The Sheets client is not modelled; each remote call becomes a parameter
 * carrying its outcome (`None` for a fetch that threw, `false` for a write
 * that threw), and `Date.now()` becomes a `now` parameter.
 */
module SheetsService {
  import opened Wrappers
  import opened Participants

  /** Freshness window of the cache, in milliseconds. */
  const CacheDuration := 30000

  /** What `verifyTicket` answers: the stored record, or a failure message. */
  datatype Lookup = Found(participant: Participant) | NotFound(message: string)

  /** A write of one value into the status column (I) at a sheet row. */
  datatype CellWrite = CellWrite(row: int, value: string)

  /** The cache's state as a value: the map and the time of its last full reload. */
  datatype Snapshot = Snapshot(entries: map<string, Participant>, lastUpdate: int)

  /** A direct key lookup in the map. */
  function Find(entries: map<string, Participant>, ticketId: string): (r: Lookup)
    ensures r.Found? <==> ticketId in entries
    ensures r.Found? ==> r.participant == entries[ticketId]
    ensures r.NotFound? ==> r.message == "Ticket not found"
  {
    if ticketId in entries then Found(entries[ticketId]) else NotFound("Ticket not found")
  }

  /** Whether a lookup at `now` must first reload: the window has passed (strictly) or the map is empty. */
  predicate RefreshDue(s: Snapshot, now: int)
    ensures |s.entries| == 0 ==> RefreshDue(s, now)
    ensures now > s.lastUpdate + CacheDuration ==> RefreshDue(s, now)
    ensures RefreshDue(s, now) && |s.entries| > 0 ==> now > s.lastUpdate + CacheDuration
  {
    now - s.lastUpdate > CacheDuration || |s.entries| == 0
  }

  /** The state after a reload attempt: fail-open on a failed fetch, full replacement otherwise. */
  function Reloaded(s: Snapshot, fetched: Option<Rows>, now: int): (r: Snapshot)
    ensures fetched.None? ==> r == s
    ensures fetched.Some? ==> r.lastUpdate == now && WellKeyed(r.entries)
    ensures WellKeyed(s.entries) ==> WellKeyed(r.entries)
  {
    match fetched
    case None => s
    case Some(rows) => Snapshot(BuildCache(rows), now)
  }

  /** The state after the optional reload that starts every lookup. */
  function AfterLookup(s: Snapshot, fetched: Option<Rows>, now: int): (r: Snapshot)
    ensures !RefreshDue(s, now) || fetched.None? ==> r == s
    ensures RefreshDue(s, now) && fetched.Some? ==> r.lastUpdate == now && WellKeyed(r.entries)
    ensures WellKeyed(s.entries) ==> WellKeyed(r.entries)
  {
    if RefreshDue(s, now) then Reloaded(s, fetched, now) else s
  }

  /** The map after a confirmed check-in write: only that entry's status changes, and no key is added. */
  function PatchStatus(entries: map<string, Participant>, ticketId: string): (r: map<string, Participant>)
    ensures r.Keys == entries.Keys
    ensures forall k :: k in entries && k != ticketId ==> r[k] == entries[k]
    ensures ticketId in entries ==> r[ticketId] == entries[ticketId].(status := CheckedIn)
    ensures WellKeyed(entries) ==> WellKeyed(r)
  {
    if ticketId in entries then entries[ticketId := entries[ticketId].(status := CheckedIn)] else entries
  }

  /** A reload replaces the map: a key survives only if some fetched row carries it. */
  lemma ReloadReplaces(s: Snapshot, rows: Rows, now: int, k: string)
    ensures Reloaded(s, Some(rows), now).lastUpdate == now
    ensures k in Reloaded(s, Some(rows), now).entries <==>
      k != "" && exists i :: 0 <= i < |rows| && Cell(rows[i], TicketIdColumn) == k
  {
    BuildCacheKeys(rows, k);
  }

  /**
   * After a successful reload at `t` that found at least one ticket, a lookup
   * at any time up to and including `t + CacheDuration` does not reload, while
   * a lookup after it does.
   */
  lemma FreshnessWindow(s: Snapshot, rows: Rows, t: int, now: int, i: nat)
    requires i < |rows| && Cell(rows[i], TicketIdColumn) != ""
    ensures !RefreshDue(Reloaded(s, Some(rows), t), now) <==> now <= t + CacheDuration
  {
    BuildCacheKeys(rows, Cell(rows[i], TicketIdColumn));
  }

  /** A failed reload keeps serving the old records: a known ticket is still found, unchanged. */
  lemma FailedReloadKeepsServing(s: Snapshot, now: int, ticketId: string)
    requires ticketId in s.entries
    ensures AfterLookup(s, None, now) == s
    ensures Find(AfterLookup(s, None, now).entries, ticketId) == Found(s.entries[ticketId])
  {
  }

  /** The module-level cache state, owned by one object. */
  class ParticipantCache {
    var participants: map<string, Participant>
    var lastUpdate: int
    /** How many sheet reads this cache has issued, successful or not. */
    ghost var fetchAttempts: nat

    ghost predicate Valid()
      reads this
    {
      WellKeyed(participants)
    }

    function State(): Snapshot
      reads this
    {
      Snapshot(participants, lastUpdate)
    }

    /** The state at process start, before any load has succeeded. */
    constructor ()
      ensures Valid()
      ensures participants == map[] && lastUpdate == 0 && fetchAttempts == 0
    {
      participants := map[];
      lastUpdate := 0;
      fetchAttempts := 0;
    }

    /** loadParticipantsCache: clear and refill the map from the fetched rows, or keep everything if the fetch failed. */
    method Load(fetched: Option<Rows>, now: int) returns (ok: bool)
      requires Valid()
      modifies this
      ensures Valid()
      ensures ok <==> fetched.Some?
      ensures State() == Reloaded(old(State()), fetched, now)
      ensures fetchAttempts == old(fetchAttempts) + 1
    {
      fetchAttempts := fetchAttempts + 1;
      if fetched.None? {
        return false;
      }
      var rows := fetched.value;
      participants := map[];
      for i := 0 to |rows|
        invariant participants == BuildCache(rows[..i])
        invariant fetchAttempts == old(fetchAttempts) + 1
      {
        var row := rows[i];
        var ticketId := Cell(row, TicketIdColumn);
        assert rows[..i + 1][..i] == rows[..i];
        if ticketId != "" {
          participants := participants[ticketId := MakeParticipant(row, i)];
        }
      }
      assert rows[..|rows|] == rows;
      lastUpdate := now;
      return true;
    }

    /**
     * verifyTicket: reload first if the window has passed or the map is empty
     * (a failed reload is tolerated), then look the key up.
     */
    method VerifyTicket(ticketId: string, fetched: Option<Rows>, now: int) returns (r: Lookup)
      requires Valid()
      modifies this
      ensures Valid()
      ensures fetchAttempts == old(fetchAttempts) + (if RefreshDue(old(State()), now) then 1 else 0)
      ensures State() == AfterLookup(old(State()), fetched, now)
      ensures r == Find(participants, ticketId)
      ensures r.Found? ==> r.participant.ticketId == ticketId
    {
      if RefreshDue(State(), now) {
        var _ := Load(fetched, now);
      }
      r := Find(participants, ticketId);
    }

    /**
     * markAsCheckedIn: write "Checked In" into the status cell of
     * `participantRow`; only once that write has succeeded, set the cached
     * record's status (if the ticket is still cached).
     */
    method MarkAsCheckedIn(participantRow: int, ticketId: string, writeSucceeded: bool) returns (ok: bool, write: CellWrite)
      requires Valid()
      modifies this
      ensures Valid()
      ensures write == CellWrite(participantRow, CheckedIn)
      ensures ok <==> writeSucceeded
      ensures participants == (if ok then PatchStatus(old(participants), ticketId) else old(participants))
      ensures lastUpdate == old(lastUpdate) && fetchAttempts == old(fetchAttempts)
    {
      write := CellWrite(participantRow, CheckedIn);
      if !writeSucceeded {
        return false, write;
      }
      if ticketId in participants {
        var participant := participants[ticketId];
        participants := participants[ticketId := participant.(status := CheckedIn)];
      }
      ok := true;
    }
  }
}
