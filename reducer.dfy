/**
 * The meetings store (reducer.ts): three reducers, each a pure function from a state record and
 * an action to the next state record. An action a reducer does not handle leaves its state
 * as it was; every store slice sees every action.
 *
 * Meetings are shared `MeetingModel` references: the reducers only copy, append and filter the
 * lists that hold them, by the meetings' constant ids.
 */
module Reducer {
  import opened Wrappers
  import opened Meetings

  // ---------------------------------------------------------------------------------------------
  // Actions (shaped after actions.ts)
  // ---------------------------------------------------------------------------------------------

  /** An instant written into a create-meeting request: absent (`''`), a date, or the end for a duration `parseInt` cannot read. */
  datatype DateText = NoDate | At(instant: int) | InvalidDate

  /** `ICreateMeeting`: the meeting the create form asks the back end to create. */
  datatype NewMeeting = NewMeeting(
    requestedTo: string, meetingType: string, title: string,
    startDateTime: int, endDateTime: DateText, summary: string)

  /** Every action type of `MeetingActions`, with the payload the reducers read; `Other` is any other type. */
  datatype Action =
    | FetchPending(isRefresh: bool)
    | FetchPendingSuccess(meetings: seq<MeetingModel>)
    | FetchPendingFailure(error: string)
    | UpdateStatus(meetingId: string, status: string)
    | UpdateStatusSuccess(meetingId: string)
    | UpdateStatusFailure(error: string)
    | FetchUpcoming
    | FetchUpcomingSuccess(meetings: seq<MeetingModel>)
    | FetchUpcomingFailure(error: string)
    | IsInitialCall(meetings: seq<MeetingModel>)
    | IsLastPageReached(isLast: bool)
    | FetchMeetingDetails(meetingId: string)
    | FetchMeetingDetailsSuccess(meeting: MeetingModel)
    | FetchMeetingDetailsFailure(error: string)
    | FetchByDate
    | FetchByDateSuccess(entries: seq<Option<MeetingModel>>)
    | FetchByDateFailure(error: string)
    | CreateMeeting(profileId: string, meetingData: NewMeeting)
    | CreateMeetingSuccess
    | CreateMeetingFailure(message: string)
    | Other(actionType: string)

  // ---------------------------------------------------------------------------------------------
  // The meetings slice
  // ---------------------------------------------------------------------------------------------

  /** `loaders`; `createMeeting` is absent until the first create-meeting action. */
  datatype Loaders = Loaders(
    pending: bool, updateStatus: bool, upcomingMeetings: bool, seeAllData: bool, createMeeting: Option<bool>)

  /** `error`: one slot per request, `null` until a failure writes it. */
  datatype Errors = Errors(
    pending: Option<string>, updateStatus: Option<string>, upcomingMeetings: Option<string>, createMeeting: Option<string>)

  /** `isMeetingCreated`. */
  datatype CreateStatus = CreateStatus(status: string, message: string)

  datatype MeetingState = MeetingState(
    pending: seq<MeetingModel>,
    upcomingMeetings: seq<MeetingModel>,
    isLastMeetingRequestPage: bool,
    isMeetingCreated: CreateStatus,
    loaders: Loaders,
    error: Errors)

  const CreatedMessage: string := "Meeting invite created successfully"

  /** `initialState`. */
  const InitialMeetingState: MeetingState := MeetingState(
    [], [], false, CreateStatus("", ""),
    Loaders(false, false, true, true, None),
    Errors(None, None, None, None))

  /** `filter(meeting => meeting.getId() !== id)`. */
  function RemoveId(ms: seq<MeetingModel>, id: string): (r: seq<MeetingModel>)
    ensures |r| <= |ms|
    ensures forall k :: 0 <= k < |r| ==> r[k].id != id
    ensures (forall k :: 0 <= k < |ms| ==> ms[k].id != id) ==> r == ms
  {
    if ms == [] then []
    else if ms[0].id != id then [ms[0]] + RemoveId(ms[1..], id)
    else RemoveId(ms[1..], id)
  }

  /** The meetings of `ms` whose id is not `id`, in their order: the reference the filter is checked against. */
  predicate IsFilterOf(r: seq<MeetingModel>, ms: seq<MeetingModel>, id: string)
    decreases |ms|
  {
    if ms == [] then r == []
    else if ms[0].id != id then r != [] && r[0] == ms[0] && IsFilterOf(r[1..], ms[1..], id)
    else IsFilterOf(r, ms[1..], id)
  }

  /**
   * `meetingsReducer`. An action it has no case for returns the state itself; only the list,
   * status-update and paging actions touch the pending list, only the upcoming actions and a
   * status update touch the upcoming list, and only the create actions touch the create status.
   */
  function MeetingsReducer(s: MeetingState, a: Action): (r: MeetingState)
    ensures !HandledByMeetings(a) ==> r == s
    ensures r.pending != s.pending ==> a.FetchPending? || a.FetchPendingSuccess? || a.UpdateStatusSuccess? || a.IsInitialCall?
    ensures r.upcomingMeetings != s.upcomingMeetings ==> a.FetchUpcoming? || a.FetchUpcomingSuccess? || a.UpdateStatusSuccess?
    ensures r.isMeetingCreated != s.isMeetingCreated ==> a.CreateMeeting? || a.CreateMeetingSuccess? || a.CreateMeetingFailure?
  {
    match a
    case FetchPending(isRefresh) =>
      s.(loaders := s.loaders.(pending := true, seeAllData := true),
         pending := if isRefresh then [] else s.pending)
    case FetchPendingSuccess(ms) =>
      s.(pending := s.pending + ms, loaders := s.loaders.(pending := false, seeAllData := false))
    case FetchPendingFailure(e) =>
      s.(error := s.error.(pending := Some(e)), loaders := s.loaders.(pending := false, seeAllData := false))
    case UpdateStatus(_, _) =>
      s.(loaders := s.loaders.(updateStatus := true))
    case UpdateStatusSuccess(id) =>
      s.(pending := RemoveId(s.pending, id), upcomingMeetings := RemoveId(s.upcomingMeetings, id),
         loaders := s.loaders.(updateStatus := false))
    case UpdateStatusFailure(e) =>
      s.(error := s.error.(updateStatus := Some(e)), loaders := s.loaders.(updateStatus := false))
    case FetchUpcoming =>
      s.(loaders := s.loaders.(upcomingMeetings := true), upcomingMeetings := [])
    case FetchUpcomingSuccess(ms) =>
      s.(upcomingMeetings := ms, loaders := s.loaders.(upcomingMeetings := false))
    case FetchUpcomingFailure(e) =>
      s.(error := s.error.(upcomingMeetings := Some(e)), loaders := s.loaders.(upcomingMeetings := false))
    case IsInitialCall(ms) =>
      s.(isLastMeetingRequestPage := false, pending := ms)
    case IsLastPageReached(isLast) =>
      s.(isLastMeetingRequestPage := isLast)
    case CreateMeeting(_, _) =>
      s.(isMeetingCreated := CreateStatus("", ""), loaders := s.loaders.(createMeeting := Some(true)))
    case CreateMeetingSuccess =>
      s.(isMeetingCreated := CreateStatus("SUCCESS", CreatedMessage), loaders := s.loaders.(createMeeting := Some(false)))
    case CreateMeetingFailure(m) =>
      s.(isMeetingCreated := CreateStatus("FAILURE", m), loaders := s.loaders.(createMeeting := Some(false)))
    case _ => s
  }

  /** The action types `meetingsReducer` has a case for. */
  predicate HandledByMeetings(a: Action) {
    !(a.FetchMeetingDetails? || a.FetchMeetingDetailsSuccess? || a.FetchMeetingDetailsFailure? ||
      a.FetchByDate? || a.FetchByDateSuccess? || a.FetchByDateFailure? || a.Other?)
  }

  // ---------------------------------------------------------------------------------------------
  // The meeting-details and calendar slices
  // ---------------------------------------------------------------------------------------------

  datatype DetailState = DetailState(
    meetingDetails: Option<MeetingModel>, status: string, error: Option<string>, loading: bool)

  /** `detailedMeetingsInitialState`. */
  const InitialDetailState: DetailState := DetailState(None, "", Some(""), true)

  /**
   * `detailedMeetingsReducer`: the loader goes up on a fetch and down on its outcome, the stored
   * meeting changes only on success, and the status never changes.
   */
  function DetailedMeetingsReducer(s: DetailState, a: Action): (r: DetailState)
    ensures r.loading <==>
      a.FetchMeetingDetails? || (s.loading && !a.FetchMeetingDetailsSuccess? && !a.FetchMeetingDetailsFailure?)
    ensures r.meetingDetails != s.meetingDetails ==> a.FetchMeetingDetailsSuccess?
    ensures r.status == s.status
  {
    match a
    case FetchMeetingDetails(_) => s.(loading := true)
    case FetchMeetingDetailsSuccess(m) => s.(meetingDetails := Some(m), loading := false)
    case FetchMeetingDetailsFailure(e) => s.(error := Some(e), loading := false)
    case _ => s
  }

  datatype CalendarState = CalendarState(
    meetingDetailsByDate: Option<seq<Option<MeetingModel>>>, status: string, error: Option<string>, loading: bool)

  /** `detailedMeetingsByDateInitialState`. */
  const InitialCalendarState: CalendarState := CalendarState(None, "", Some(""), true)

  /**
   * `calendarReducer`: the loader goes up on a fetch by date and down on its outcome, the list
   * changes only on success, and the status never changes.
   */
  function CalendarReducer(s: CalendarState, a: Action): (r: CalendarState)
    ensures r.loading <==> a.FetchByDate? || (s.loading && !a.FetchByDateSuccess? && !a.FetchByDateFailure?)
    ensures r.meetingDetailsByDate != s.meetingDetailsByDate ==> a.FetchByDateSuccess?
    ensures r.status == s.status
  {
    match a
    case FetchByDate => s.(loading := true)
    case FetchByDateSuccess(entries) => s.(meetingDetailsByDate := Some(entries), loading := false)
    case FetchByDateFailure(e) => s.(error := Some(e), loading := false)
    case _ => s
  }

  // ---------------------------------------------------------------------------------------------
  // Runs of actions
  // ---------------------------------------------------------------------------------------------

  /** The meetings slice after dispatching `acts` in order. */
  function RunMeetings(s: MeetingState, acts: seq<Action>): MeetingState
    decreases |acts|
  {
    if acts == [] then s else MeetingsReducer(RunMeetings(s, acts[..|acts| - 1]), acts[|acts| - 1])
  }

  /** The details slice after dispatching `acts` in order. */
  function RunDetails(s: DetailState, acts: seq<Action>): DetailState
    decreases |acts|
  {
    if acts == [] then s else DetailedMeetingsReducer(RunDetails(s, acts[..|acts| - 1]), acts[|acts| - 1])
  }

  /** The calendar slice after dispatching `acts` in order. */
  function RunCalendar(s: CalendarState, acts: seq<Action>): CalendarState
    decreases |acts|
  {
    if acts == [] then s else CalendarReducer(RunCalendar(s, acts[..|acts| - 1]), acts[|acts| - 1])
  }

  // ---------------------------------------------------------------------------------------------
  // Properties
  // ---------------------------------------------------------------------------------------------

  /** An action a reducer has no case for returns its state unchanged, for all three reducers. */
  lemma UnhandledLeavesState(s: MeetingState, d: DetailState, c: CalendarState, a: Action)
    ensures !HandledByMeetings(a) ==> MeetingsReducer(s, a) == s
    ensures !(a.FetchMeetingDetails? || a.FetchMeetingDetailsSuccess? || a.FetchMeetingDetailsFailure?) ==>
      DetailedMeetingsReducer(d, a) == d
    ensures !(a.FetchByDate? || a.FetchByDateSuccess? || a.FetchByDateFailure?) ==> CalendarReducer(c, a) == c
  {
  }

  /** `FETCH_PENDING` raises both list loaders and empties the list exactly on a refresh. */
  lemma FetchPendingLoads(s: MeetingState, isRefresh: bool)
    ensures var r := MeetingsReducer(s, FetchPending(isRefresh));
      && r.loaders.pending && r.loaders.seeAllData
      && (r.pending == [] <==> isRefresh || s.pending == [])
      && (!isRefresh ==> r.pending == s.pending)
      && r.upcomingMeetings == s.upcomingMeetings && r.error == s.error
  {
  }

  /** `FETCH_PENDING_SUCCESS` appends the page after the meetings already listed and clears both loaders. */
  lemma FetchPendingAppends(s: MeetingState, page: seq<MeetingModel>)
    ensures var r := MeetingsReducer(s, FetchPendingSuccess(page));
      && |r.pending| == |s.pending| + |page|
      && r.pending[..|s.pending|] == s.pending && r.pending[|s.pending|..] == page
      && !r.loaders.pending && !r.loaders.seeAllData
  {
    var r := MeetingsReducer(s, FetchPendingSuccess(page));
    assert r.pending == s.pending + page;
  }

  /** The filter keeps a meeting exactly when its id differs: nothing with that id stays, nothing else goes. */
  lemma {:induction false} RemoveIdMembers(ms: seq<MeetingModel>, id: string)
    ensures forall m :: m in RemoveId(ms, id) <==> m in ms && m.id != id
  {
    if ms != [] {
      RemoveIdMembers(ms[1..], id);
      assert forall m :: m in ms <==> m == ms[0] || m in ms[1..];
    }
  }

  /** The filter keeps the remaining meetings in their relative order. */
  lemma {:induction false} RemoveIdKeepsOrder(ms: seq<MeetingModel>, id: string)
    ensures IsFilterOf(RemoveId(ms, id), ms, id)
  {
    if ms != [] {
      RemoveIdKeepsOrder(ms[1..], id);
      if ms[0].id != id {
        assert RemoveId(ms, id)[1..] == RemoveId(ms[1..], id);
      }
    }
  }

  /** Filtering twice by the same id is filtering once. */
  lemma {:induction false} RemoveIdIdempotent(ms: seq<MeetingModel>, id: string)
    ensures RemoveId(RemoveId(ms, id), id) == RemoveId(ms, id)
  {
    if ms != [] {
      RemoveIdIdempotent(ms[1..], id);
      if ms[0].id != id {
        assert RemoveId(ms, id) == [ms[0]] + RemoveId(ms[1..], id);
        assert ([ms[0]] + RemoveId(ms[1..], id))[1..] == RemoveId(ms[1..], id);
      }
    }
  }

  /**
   * `UPDATE_STATUS_SUCCESS` removes the meeting with that id from both lists, keeps every other
   * meeting in order, clears the update loader, and doing it twice is doing it once.
   */
  lemma UpdateStatusSuccessRemoves(s: MeetingState, id: string)
    ensures var r := MeetingsReducer(s, UpdateStatusSuccess(id));
      && (forall m :: m in r.pending <==> m in s.pending && m.id != id)
      && (forall m :: m in r.upcomingMeetings <==> m in s.upcomingMeetings && m.id != id)
      && IsFilterOf(r.pending, s.pending, id) && IsFilterOf(r.upcomingMeetings, s.upcomingMeetings, id)
      && !r.loaders.updateStatus
      && MeetingsReducer(r, UpdateStatusSuccess(id)) == r
  {
    var r := MeetingsReducer(s, UpdateStatusSuccess(id));
    UpdateStatusSuccessStep(s, id);
    UpdateStatusSuccessStep(r, id);
    RemoveIdMembers(s.pending, id);
    RemoveIdMembers(s.upcomingMeetings, id);
    RemoveIdKeepsOrder(s.pending, id);
    RemoveIdKeepsOrder(s.upcomingMeetings, id);
    RemoveIdIdempotent(s.pending, id);
    RemoveIdIdempotent(s.upcomingMeetings, id);
  }

  /** What `UPDATE_STATUS_SUCCESS` writes: both lists filtered by the id, the update loader off. */
  lemma UpdateStatusSuccessStep(s: MeetingState, id: string)
    ensures MeetingsReducer(s, UpdateStatusSuccess(id)) ==
      s.(pending := RemoveId(s.pending, id), upcomingMeetings := RemoveId(s.upcomingMeetings, id),
         loaders := s.loaders.(updateStatus := false))
  {
  }

  /** `FETCH_UPCOMING` empties the list and raises its loader; success replaces the list and clears it. */
  lemma UpcomingReplaces(s: MeetingState, page: seq<MeetingModel>)
    ensures var r := MeetingsReducer(s, FetchUpcoming);
      r.upcomingMeetings == [] && r.loaders.upcomingMeetings && r.pending == s.pending
    ensures var r := MeetingsReducer(s, FetchUpcomingSuccess(page));
      r.upcomingMeetings == page && !r.loaders.upcomingMeetings && r.pending == s.pending
  {
  }

  /** Every `*_FAILURE` action writes its own error slot and clears its own loader, and nothing else. */
  lemma FailuresTouchOnlyTheirSlot(s: MeetingState, d: DetailState, c: CalendarState, e: string)
    ensures MeetingsReducer(s, FetchPendingFailure(e)) ==
      s.(error := s.error.(pending := Some(e)), loaders := s.loaders.(pending := false, seeAllData := false))
    ensures MeetingsReducer(s, UpdateStatusFailure(e)) ==
      s.(error := s.error.(updateStatus := Some(e)), loaders := s.loaders.(updateStatus := false))
    ensures MeetingsReducer(s, FetchUpcomingFailure(e)) ==
      s.(error := s.error.(upcomingMeetings := Some(e)), loaders := s.loaders.(upcomingMeetings := false))
    ensures DetailedMeetingsReducer(d, FetchMeetingDetailsFailure(e)) == d.(error := Some(e), loading := false)
    ensures CalendarReducer(c, FetchByDateFailure(e)) == c.(error := Some(e), loading := false)
  {
  }

  /** `IS_INITIAL_CALL` restarts paging with the payload; `IS_LAST_PAGE_REACHED` sets only the flag. */
  lemma PagingFlags(s: MeetingState, ms: seq<MeetingModel>, isLast: bool)
    ensures MeetingsReducer(s, IsInitialCall(ms)) == s.(isLastMeetingRequestPage := false, pending := ms)
    ensures MeetingsReducer(s, IsLastPageReached(isLast)) == s.(isLastMeetingRequestPage := isLast)
  {
  }

  /** The actions that can shorten or replace the pending list. */
  predicate ResetsPending(a: Action) {
    (a.FetchPending? && a.isRefresh) || a.UpdateStatusSuccess? || a.IsInitialCall?
  }

  /**
   * Without a refresh, a status update or a paging restart, the pending list only grows:
   * every run of other actions keeps the meetings already listed as a prefix.
   */
  lemma {:induction false} PendingOnlyGrows(s: MeetingState, acts: seq<Action>)
    requires forall k :: 0 <= k < |acts| ==> !ResetsPending(acts[k])
    ensures s.pending <= RunMeetings(s, acts).pending
  {
    if acts != [] {
      var p := acts[..|acts| - 1];
      PendingOnlyGrows(s, p);
      var mid := RunMeetings(s, p);
      assert mid.pending <= MeetingsReducer(mid, acts[|acts| - 1]).pending;
    }
  }

  /** The create-meeting status each create action leaves behind. */
  function CreateOutcome(a: Action): Option<CreateStatus> {
    match a
    case CreateMeeting(_, _) => Some(CreateStatus("", ""))
    case CreateMeetingSuccess => Some(CreateStatus("SUCCESS", CreatedMessage))
    case CreateMeetingFailure(m) => Some(CreateStatus("FAILURE", m))
    case _ => None
  }

  /** The status left by the last create action of `acts`, if there is one. */
  function LastCreateOutcome(acts: seq<Action>): Option<CreateStatus>
    decreases |acts|
  {
    if acts == [] then None
    else if CreateOutcome(acts[|acts| - 1]).Some? then CreateOutcome(acts[|acts| - 1])
    else LastCreateOutcome(acts[..|acts| - 1])
  }

  /**
   * The create-meeting status machine: after any run of actions the status is the one the last
   * create action set (`('', '')`, `('SUCCESS', …)` or `('FAILURE', payload)`), and the create
   * loader is on exactly when that last action was `CREATE_MEETING`.
   */
  lemma {:induction false} CreateStatusFollowsLastCreateAction(s: MeetingState, acts: seq<Action>)
    ensures RunMeetings(s, acts).isMeetingCreated == LastCreateOutcome(acts).GetOr(s.isMeetingCreated)
    ensures LastCreateOutcome(acts).Some? ==>
      (RunMeetings(s, acts).loaders.createMeeting == Some(true) <==> LastCreateOutcome(acts).value.status == "")
    ensures LastCreateOutcome(acts).None? ==> RunMeetings(s, acts).loaders.createMeeting == s.loaders.createMeeting
  {
    if acts != [] {
      var p, a := acts[..|acts| - 1], acts[|acts| - 1];
      CreateStatusFollowsLastCreateAction(s, p);
      CreateStep(RunMeetings(s, p), a);
    }
  }

  /** One action: a create action sets the status it names, and any other action leaves it alone. */
  lemma CreateStep(s: MeetingState, a: Action)
    ensures MeetingsReducer(s, a).isMeetingCreated == CreateOutcome(a).GetOr(s.isMeetingCreated)
    ensures MeetingsReducer(s, a).loaders.createMeeting ==
      if CreateOutcome(a).Some? then Some(CreateOutcome(a).value.status == "") else s.loaders.createMeeting
  {
  }

  /** The details loader is on exactly while the last details action is a fetch (or none came yet, initially). */
  lemma {:induction false} DetailsLoaderTracksFetch(acts: seq<Action>)
    ensures RunDetails(InitialDetailState, acts).loading <==>
      forall k :: 0 <= k < |acts| && (acts[k].FetchMeetingDetailsSuccess? || acts[k].FetchMeetingDetailsFailure?) ==>
        exists j :: k < j < |acts| && acts[j].FetchMeetingDetails?
  {
    if acts != [] {
      var p := acts[..|acts| - 1];
      DetailsLoaderTracksFetch(p);
      var a := acts[|acts| - 1];
      if a.FetchMeetingDetailsSuccess? || a.FetchMeetingDetailsFailure? {
        assert !RunDetails(InitialDetailState, acts).loading;
      } else if a.FetchMeetingDetails? {
        assert RunDetails(InitialDetailState, acts).loading;
      } else {
        assert RunDetails(InitialDetailState, acts) == RunDetails(InitialDetailState, p);
        assert forall k :: 0 <= k < |p| ==> acts[k] == p[k];
      }
    }
  }

  /** The calendar loader is on exactly while the last by-date action is a fetch (or none came yet, initially). */
  lemma {:induction false} CalendarLoaderTracksFetch(acts: seq<Action>)
    ensures RunCalendar(InitialCalendarState, acts).loading <==>
      forall k :: 0 <= k < |acts| && (acts[k].FetchByDateSuccess? || acts[k].FetchByDateFailure?) ==>
        exists j :: k < j < |acts| && acts[j].FetchByDate?
  {
    if acts != [] {
      var p := acts[..|acts| - 1];
      CalendarLoaderTracksFetch(p);
      var a := acts[|acts| - 1];
      if a.FetchByDateSuccess? || a.FetchByDateFailure? {
        assert !RunCalendar(InitialCalendarState, acts).loading;
      } else if a.FetchByDate? {
        assert RunCalendar(InitialCalendarState, acts).loading;
      } else {
        assert RunCalendar(InitialCalendarState, acts) == RunCalendar(InitialCalendarState, p);
        assert forall k :: 0 <= k < |p| ==> acts[k] == p[k];
      }
    }
  }
}
