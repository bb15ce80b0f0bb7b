/**
 * The decision logic of the handlers in routes/verification.js, without the
 * Express plumbing: each handler maps the request body and the outcomes of
 * the cache operations to a response value. HTTP status codes are folded
 * into the response constructors (the `...BadRequest` ones are the 400s).
 */
module Verification {
  import opened Wrappers
  import opened Participants
  import opened SheetsService

  /** The participant fields `/verify` echoes for a ticket it rejects. */
  datatype Summary = Summary(name: string, email: string, status: string)

  /** The participant fields `/verify` echoes for a valid ticket. */
  datatype Details = Details(name: string, email: string, phone: string, status: string, ticketId: string)

  datatype VerifyResponse =
    | VerifyBadRequest
    | AlreadyUsed(summary: Summary)
    | InvalidStatus(summary: Summary)
    | ValidTicket(details: Details)
    | NotValid(message: string)
  {
    predicate Success() {
      ValidTicket?
    }

    function Message(): string {
      match this
      case VerifyBadRequest => "Ticket ID is required"
      case AlreadyUsed(_) => "Ticket already used"
      case InvalidStatus(_) => "Invalid ticket status"
      case ValidTicket(_) => "Valid ticket"
      case NotValid(message) => message
    }
  }

  datatype CheckInResponse =
    | CheckInBadRequest
    | InvalidTicket
    | AlreadyCheckedIn(name: string)
    | CheckedInNow(name: string, email: string)
    | WriteFailed
  {
    predicate Success() {
      CheckedInNow?
    }

    function Message(): string {
      match this
      case CheckInBadRequest => "Ticket ID is required"
      case InvalidTicket => "Invalid ticket - cannot check in"
      case AlreadyCheckedIn(_) => "Already checked in"
      case CheckedInNow(_, _) => "Successfully checked in"
      case WriteFailed => "Failed to update check-in status"
    }
  }

  /** What `/checkin` does after its lookup: answer at once, or write the status of this record's row. */
  datatype CheckInStep = Answer(response: CheckInResponse) | WriteStatus(participant: Participant)

  /** One entry of the `/bulk-verify` result list. */
  datatype BulkItem = BulkItem(ticketId: string, valid: bool, participant: Option<Participant>, message: Option<string>)

  datatype BulkResponse = BulkBadRequest | BulkResults(results: seq<BulkItem>)

  datatype RefreshResponse = Refreshed | RefreshFailed

  /** `ticketId` taken from the request body passes `if (!ticketId)`: present and not the empty string. */
  predicate IdPresent(ticketId: Option<string>) {
    ticketId.Some? && ticketId.value != ""
  }

  function SummaryOf(p: Participant): Summary {
    Summary(p.name, p.email, p.status)
  }

  function DetailsOf(p: Participant): Details {
    Details(p.name, p.email, p.phone, p.status, p.ticketId)
  }

  /** `/verify`'s classification of a lookup result. */
  function VerifyResponseFor(lookup: Lookup): (r: VerifyResponse)
    ensures r.Success() <==> lookup.Found? && lookup.participant.status == TicketSent
    ensures r.AlreadyUsed? <==> lookup.Found? && lookup.participant.status == CheckedIn
    ensures r.InvalidStatus? <==>
      lookup.Found? && lookup.participant.status != CheckedIn && lookup.participant.status != TicketSent
    ensures r.NotValid? <==> lookup.NotFound?
    ensures r.NotValid? ==> r.message != ""
    ensures lookup.NotFound? && lookup.message != "" ==> r.message == lookup.message
    ensures r.ValidTicket? ==> r.details == DetailsOf(lookup.participant)
    ensures r.AlreadyUsed? || r.InvalidStatus? ==> r.summary == SummaryOf(lookup.participant)
  {
    match lookup
    case Found(p) =>
      if p.status == CheckedIn then AlreadyUsed(SummaryOf(p))
      else if p.status != TicketSent then InvalidStatus(SummaryOf(p))
      else ValidTicket(DetailsOf(p))
    case NotFound(message) =>
      NotValid(if message == "" then "Invalid ticket" else message)
  }

  /** `/checkin`'s guard: only a found ticket that is not already checked in reaches the write. */
  function CheckInStepFor(lookup: Lookup): (s: CheckInStep)
    ensures s.WriteStatus? <==> lookup.Found? && lookup.participant.status != CheckedIn
    ensures s.WriteStatus? ==> s.participant == lookup.participant
    ensures lookup.NotFound? ==> s == Answer(InvalidTicket)
    ensures lookup.Found? && lookup.participant.status == CheckedIn ==>
      s == Answer(AlreadyCheckedIn(lookup.participant.name))
    ensures s.Answer? ==> !s.response.Success()
  {
    match lookup
    case NotFound(_) => Answer(InvalidTicket)
    case Found(p) =>
      if p.status == CheckedIn then Answer(AlreadyCheckedIn(p.name)) else WriteStatus(p)
  }

  /** `/checkin`'s answer once the write has returned. */
  function CheckInOutcome(p: Participant, written: bool): (r: CheckInResponse)
    ensures r.Success() <==> written
    ensures written ==> r == CheckedInNow(p.name, p.email)
    ensures !written ==> r == WriteFailed
  {
    if written then CheckedInNow(p.name, p.email) else WriteFailed
  }

  /** The `/bulk-verify` entry for one id: `participant || null`, `message || null`. */
  function BulkItemFor(ticketId: string, lookup: Lookup): (item: BulkItem)
    ensures item.ticketId == ticketId
    ensures item.valid <==> lookup.Found?
    ensures item.valid <==> item.participant.Some?
    ensures lookup.Found? ==> item.participant.value == lookup.participant && item.message == None
    ensures lookup.NotFound? && lookup.message != "" ==> item.message == Some(lookup.message)
  {
    match lookup
    case Found(p) => BulkItem(ticketId, true, Some(p), None)
    case NotFound(message) =>
      BulkItem(ticketId, false, None, if message == "" then None else Some(message))
  }

  /**
   * The results and final cache state of looking the ids up one after the
   * other, the i-th lookup seeing fetch outcome `fetches[i]` at time `clock[i]`.
   */
  function BulkRun(s: Snapshot, ids: seq<string>, fetches: seq<Option<Rows>>, clock: seq<int>): (out: (seq<BulkItem>, Snapshot))
    requires |fetches| == |ids| && |clock| == |ids|
    ensures |out.0| == |ids|
    ensures forall i :: 0 <= i < |ids| ==> out.0[i].ticketId == ids[i]
    ensures WellKeyed(s.entries) ==> WellKeyed(out.1.entries)
    ensures WellKeyed(s.entries) ==>
      forall i :: 0 <= i < |ids| && out.0[i].participant.Some? ==> out.0[i].participant.value.ticketId == ids[i]
    decreases |ids|
  {
    if ids == [] then ([], s)
    else
      var n := |ids| - 1;
      var earlier := BulkRun(s, ids[..n], fetches[..n], clock[..n]);
      var next := AfterLookup(earlier.1, fetches[n], clock[n]);
      (earlier.0 + [BulkItemFor(ids[n], Find(next.entries, ids[n]))], next)
  }

  /** How many sheet reads the lookups of `BulkRun` issue: one for each lookup that finds a refresh due. */
  function BulkReads(s: Snapshot, ids: seq<string>, fetches: seq<Option<Rows>>, clock: seq<int>): (count: nat)
    requires |fetches| == |ids| && |clock| == |ids|
    ensures count <= |ids|
    decreases |ids|
  {
    if ids == [] then 0
    else
      var n := |ids| - 1;
      var earlier := BulkRun(s, ids[..n], fetches[..n], clock[..n]);
      BulkReads(s, ids[..n], fetches[..n], clock[..n]) + (if RefreshDue(earlier.1, clock[n]) then 1 else 0)
  }

  /**
   * Inside the freshness window a bulk call changes nothing and issues no
   * read, and each entry reports that id's own lookup in the current map.
   */
  lemma {:induction false} BulkWithinWindow(s: Snapshot, ids: seq<string>, fetches: seq<Option<Rows>>, clock: seq<int>)
    requires |fetches| == |ids| && |clock| == |ids|
    requires forall i :: 0 <= i < |ids| ==> !RefreshDue(s, clock[i])
    ensures BulkRun(s, ids, fetches, clock).1 == s
    ensures BulkReads(s, ids, fetches, clock) == 0
    ensures forall i :: 0 <= i < |ids| ==> BulkRun(s, ids, fetches, clock).0[i] == BulkItemFor(ids[i], Find(s.entries, ids[i]))
    decreases |ids|
  {
    if ids != [] {
      var n := |ids| - 1;
      BulkWithinWindow(s, ids[..n], fetches[..n], clock[..n]);
    }
  }

  /**
   * `/checkin` writes for every found status except "Checked In", which is
   * more than `/verify` accepts: it also writes for the statuses `/verify`
   * calls invalid (an empty status included).
   */
  lemma CheckInWritesBeyondVerify(lookup: Lookup)
    ensures CheckInStepFor(lookup).WriteStatus? <==>
      VerifyResponseFor(lookup).ValidTicket? || VerifyResponseFor(lookup).InvalidStatus?
  {
  }

  /**
   * A sent ticket verifies; after its check-in write succeeded, a lookup that
   * does not reload reports it used, and a second check-in issues no write.
   */
  lemma VerifyCheckInVerify(s: Snapshot, ticketId: string, t1: int, t2: int, f1: Option<Rows>, f2: Option<Rows>)
    requires ticketId in s.entries && s.entries[ticketId].status == TicketSent
    requires !RefreshDue(s, t1)
    requires !RefreshDue(s, t2)
    ensures VerifyResponseFor(Find(AfterLookup(s, f1, t1).entries, ticketId)).Success()
    ensures CheckInStepFor(Find(AfterLookup(s, f1, t1).entries, ticketId)) == WriteStatus(s.entries[ticketId])
    ensures var patched := s.(entries := PatchStatus(s.entries, ticketId));
      && VerifyResponseFor(Find(AfterLookup(patched, f2, t2).entries, ticketId)).AlreadyUsed?
      && CheckInStepFor(Find(AfterLookup(patched, f2, t2).entries, ticketId)) ==
           Answer(AlreadyCheckedIn(s.entries[ticketId].name))
  {
  }

  /** `/verify`: validate the body, look the ticket up, classify. */
  method HandleVerify(cache: ParticipantCache, ticketId: Option<string>, fetched: Option<Rows>, now: int) returns (resp: VerifyResponse)
    requires cache.Valid()
    modifies cache
    ensures cache.Valid()
    ensures !IdPresent(ticketId) ==>
      resp == VerifyBadRequest && cache.State() == old(cache.State()) && cache.fetchAttempts == old(cache.fetchAttempts)
    ensures IdPresent(ticketId) ==>
      && cache.State() == AfterLookup(old(cache.State()), fetched, now)
      && cache.fetchAttempts == old(cache.fetchAttempts) + (if RefreshDue(old(cache.State()), now) then 1 else 0)
      && resp == VerifyResponseFor(Find(cache.participants, ticketId.value))
  {
    if !IdPresent(ticketId) {
      return VerifyBadRequest;
    }
    var lookup := cache.VerifyTicket(ticketId.value, fetched, now);
    resp := VerifyResponseFor(lookup);
  }

  /**
   * `/checkin`: validate the body, look the ticket up, and unless it is
   * missing or already checked in, write its status and report the write's
   * outcome. `writes` lists the remote writes issued.
   */
  method HandleCheckIn(cache: ParticipantCache, ticketId: Option<string>, fetched: Option<Rows>, now: int, writeSucceeds: bool)
    returns (resp: CheckInResponse, writes: seq<CellWrite>)
    requires cache.Valid()
    modifies cache
    ensures cache.Valid()
    ensures |writes| <= 1
    ensures resp.Success() <==> writes != [] && writeSucceeds
    ensures !IdPresent(ticketId) ==>
      && resp == CheckInBadRequest && writes == []
      && cache.State() == old(cache.State()) && cache.fetchAttempts == old(cache.fetchAttempts)
    ensures IdPresent(ticketId) ==>
      cache.fetchAttempts == old(cache.fetchAttempts) + (if RefreshDue(old(cache.State()), now) then 1 else 0)
    ensures IdPresent(ticketId) ==>
      var seen := AfterLookup(old(cache.State()), fetched, now);
      match CheckInStepFor(Find(seen.entries, ticketId.value))
      case Answer(r) => resp == r && writes == [] && cache.State() == seen
      case WriteStatus(p) =>
        && writes == [CellWrite(p.row, CheckedIn)]
        && resp == CheckInOutcome(p, writeSucceeds)
        && cache.State() == (if writeSucceeds then seen.(entries := PatchStatus(seen.entries, ticketId.value)) else seen)
  {
    if !IdPresent(ticketId) {
      return CheckInBadRequest, [];
    }
    var lookup := cache.VerifyTicket(ticketId.value, fetched, now);
    match CheckInStepFor(lookup)
    case Answer(r) =>
      resp, writes := r, [];
    case WriteStatus(p) =>
      var ok, write := cache.MarkAsCheckedIn(p.row, ticketId.value, writeSucceeds);
      resp, writes := CheckInOutcome(p, ok), [write];
  }

  /** `BulkRun` and `BulkReads` on a prefix one id longer: one more lookup step on the state reached so far. */
  lemma BulkStep(s: Snapshot, ids: seq<string>, fetches: seq<Option<Rows>>, clock: seq<int>, i: nat)
    requires |fetches| == |ids| && |clock| == |ids| && i < |ids|
    ensures var earlier := BulkRun(s, ids[..i], fetches[..i], clock[..i]);
      var next := AfterLookup(earlier.1, fetches[i], clock[i]);
      && BulkRun(s, ids[..i + 1], fetches[..i + 1], clock[..i + 1]) ==
           (earlier.0 + [BulkItemFor(ids[i], Find(next.entries, ids[i]))], next)
      && BulkReads(s, ids[..i + 1], fetches[..i + 1], clock[..i + 1]) ==
           BulkReads(s, ids[..i], fetches[..i], clock[..i]) + (if RefreshDue(earlier.1, clock[i]) then 1 else 0)
  {
    assert ids[..i + 1][..i] == ids[..i];
    assert fetches[..i + 1][..i] == fetches[..i];
    assert clock[..i + 1][..i] == clock[..i];
  }

  /** `/bulk-verify`: reject a missing or empty list, else look every id up in order. */
  method HandleBulkVerify(cache: ParticipantCache, ticketIds: Option<seq<string>>, fetches: seq<Option<Rows>>, clock: seq<int>)
    returns (resp: BulkResponse)
    requires cache.Valid()
    requires ticketIds.Some? ==> |fetches| == |ticketIds.value| && |clock| == |ticketIds.value|
    modifies cache
    ensures cache.Valid()
    ensures resp.BulkBadRequest? <==> ticketIds.None? || ticketIds.value == []
    ensures resp.BulkBadRequest? ==> cache.State() == old(cache.State()) && cache.fetchAttempts == old(cache.fetchAttempts)
    ensures resp.BulkResults? ==>
      var run := BulkRun(old(cache.State()), ticketIds.value, fetches, clock);
      && resp.results == run.0 && cache.State() == run.1
      && cache.fetchAttempts == old(cache.fetchAttempts) + BulkReads(old(cache.State()), ticketIds.value, fetches, clock)
  {
    if ticketIds.None? || |ticketIds.value| == 0 {
      return BulkBadRequest;
    }
    var ids := ticketIds.value;
    ghost var start, startReads := cache.State(), cache.fetchAttempts;
    var results := [];
    for i := 0 to |ids|
      invariant cache.Valid()
      invariant (results, cache.State()) == BulkRun(start, ids[..i], fetches[..i], clock[..i])
      invariant cache.fetchAttempts == startReads + BulkReads(start, ids[..i], fetches[..i], clock[..i])
    {
      BulkStep(start, ids, fetches, clock, i);
      var lookup := cache.VerifyTicket(ids[i], fetches[i], clock[i]);
      results := results + [BulkItemFor(ids[i], lookup)];
    }
    assert ids[..|ids|] == ids && fetches[..|ids|] == fetches && clock[..|ids|] == clock;
    resp := BulkResults(results);
  }

  /** `/refresh-cache`: force a reload and report whether it succeeded. */
  method HandleRefreshCache(cache: ParticipantCache, fetched: Option<Rows>, now: int) returns (resp: RefreshResponse)
    requires cache.Valid()
    modifies cache
    ensures cache.Valid()
    ensures resp.Refreshed? <==> fetched.Some?
    ensures cache.State() == Reloaded(old(cache.State()), fetched, now)
    ensures cache.fetchAttempts == old(cache.fetchAttempts) + 1
  {
    var ok := cache.Load(fetched, now);
    resp := if ok then Refreshed else RefreshFailed;
  }
}
