/**
 * Reading the store (selectors.ts): the meeting lists a screen shows, each meeting with the
 * profile of the participant who is not the current user, and the loading, error and status
 * values with their defaults when a slice is missing.
 *
 * The current user's profile id and the profiles by id come from the profile store, which is
 * not part of this model: `RootState` carries them as plain values.
 */
module Selectors {
  import opened Wrappers
  import opened Meetings
  import opened Reducer

  /** The store as the selectors read it; a `None` slice is a slice that is `undefined`. */
  datatype RootState = RootState(
    userProfileId: string,
    profiles: map<string, Profile>,
    meetings: Option<MeetingState>,
    meetingDetails: Option<DetailState>,
    calendar: CalendarState)

  /** `getProfileById`: the profile with that id, or `undefined`. */
  function ProfileById(profiles: map<string, Profile>, id: string): Option<Profile> {
    if id in profiles then Some(profiles[id]) else None
  }

  // ---------------------------------------------------------------------------------------------
  // The other participant
  // ---------------------------------------------------------------------------------------------

  /**
   * The participant whose profile a meeting is shown with: the requester when that is not the
   * user, else the recipient when that is not the user, else nobody.
   */
  function Counterparty(requestedBy: string, requestedTo: string, user: string): (r: Option<string>)
    ensures r.Some? ==> r.value != user && (r.value == requestedBy || r.value == requestedTo)
    ensures r.None? <==> requestedBy == user && requestedTo == user
    ensures requestedBy != user ==> r == Some(requestedBy)
  {
    if requestedBy != user then Some(requestedBy)
    else if requestedTo != user then Some(requestedTo)
    else None
  }

  /** Which list selector copies the meetings. */
  datatype Rule = Requests | Upcoming

  /**
   * What a list selector contributes for one meeting: a copy whose profile is the other
   * participant's, or nothing. Requests keep only meetings the user did not ask for; upcoming
   * meetings keep every meeting with another participant.
   */
  function CopyFor(rule: Rule, d: MeetingData, user: string, profiles: map<string, Profile>): (r: Option<MeetingData>)
    ensures r.Some? ==> r.value.(profile := d.profile) == d
  {
    match rule
    case Requests =>
      if d.requestedBy != user then Some(d.(profile := ProfileById(profiles, d.requestedBy))) else None
    case Upcoming =>
      match Counterparty(d.requestedBy, d.requestedTo, user)
      case Some(p) => Some(d.(profile := ProfileById(profiles, p)))
      case None => None
  }

  /** The copies a list selector pushes for `ms`, in order. */
  function Collect(rule: Rule, ms: seq<MeetingData>, user: string, profiles: map<string, Profile>): (r: seq<MeetingData>)
    ensures |r| <= |ms|
    ensures forall k :: 0 <= k < |r| ==> Kept(rule, r[k], user)
    decreases |ms|
  {
    if ms == [] then []
    else
      Collect(rule, ms[..|ms| - 1], user, profiles) + Piece(rule, ms[|ms| - 1], user, profiles)
  }

  /** What one meeting contributes to the list: its copy, or nothing. */
  function Piece(rule: Rule, d: MeetingData, user: string, profiles: map<string, Profile>): seq<MeetingData> {
    match CopyFor(rule, d, user, profiles)
    case Some(c) => [c]
    case None => []
  }

  /** Whether the list selector keeps a meeting. */
  predicate Kept(rule: Rule, d: MeetingData, user: string) {
    match rule
    case Requests => d.requestedBy != user
    case Upcoming => d.requestedBy != user || d.requestedTo != user
  }

  /** A kept meeting's copy: same id and participants, the other participant's profile. */
  lemma CopyForKept(rule: Rule, d: MeetingData, user: string, profiles: map<string, Profile>)
    ensures CopyFor(rule, d, user, profiles).Some? <==> Kept(rule, d, user)
    ensures Kept(rule, d, user) ==>
      var c := CopyFor(rule, d, user, profiles).value;
      && c.id == d.id && c.requestedBy == d.requestedBy && c.requestedTo == d.requestedTo
      && Counterparty(d.requestedBy, d.requestedTo, user).Some?
      && c.profile == ProfileById(profiles, Counterparty(d.requestedBy, d.requestedTo, user).value)
  {
  }

  /** The selection distributes over concatenation: it keeps the meetings in their input order. */
  lemma {:induction false} CollectConcat(rule: Rule, a: seq<MeetingData>, b: seq<MeetingData>, user: string, profiles: map<string, Profile>)
    ensures Collect(rule, a + b, user, profiles) == Collect(rule, a, user, profiles) + Collect(rule, b, user, profiles)
    decreases |b|
  {
    if b == [] {
      assert a + b == a;
    } else {
      var b', x := b[..|b| - 1], b[|b| - 1];
      SplitLast(a, b);
      calc {
        Collect(rule, a + b, user, profiles);
      == { CollectSnoc(rule, a + b', x, user, profiles); }
        Collect(rule, a + b', user, profiles) + Piece(rule, x, user, profiles);
      == { CollectConcat(rule, a, b', user, profiles); }
        Collect(rule, a, user, profiles) + Collect(rule, b', user, profiles) + Piece(rule, x, user, profiles);
      == { CollectSnoc(rule, b', x, user, profiles); }
        Collect(rule, a, user, profiles) + Collect(rule, b, user, profiles);
      }
    }
  }

  lemma WholePrefix<T>(s: seq<T>)
    ensures s[..|s|] == s
  {
  }

  /** `b` without its last element, and that element, put back together. */
  lemma SplitLast<T>(a: seq<T>, b: seq<T>)
    requires b != []
    ensures b == b[..|b| - 1] + [b[|b| - 1]]
    ensures a + b == (a + b[..|b| - 1]) + [b[|b| - 1]]
  {
  }

  lemma CollectSnoc(rule: Rule, ms: seq<MeetingData>, x: MeetingData, user: string, profiles: map<string, Profile>)
    ensures Collect(rule, ms + [x], user, profiles) == Collect(rule, ms, user, profiles) + Piece(rule, x, user, profiles)
  {
    assert (ms + [x])[..|ms|] == ms;
  }

  /** Exactly the kept meetings come out, each as its copy with the other participant's profile. */
  lemma {:induction false} CollectMembers(rule: Rule, ms: seq<MeetingData>, user: string, profiles: map<string, Profile>)
    ensures forall c :: c in Collect(rule, ms, user, profiles) <==>
      exists k :: 0 <= k < |ms| && Kept(rule, ms[k], user) && CopyFor(rule, ms[k], user, profiles) == Some(c)
    decreases |ms|
  {
    if ms != [] {
      var p := ms[..|ms| - 1];
      CollectMembers(rule, p, user, profiles);
      CopyForKept(rule, ms[|ms| - 1], user, profiles);
      forall k | 0 <= k < |p|
        ensures CopyFor(rule, ms[k], user, profiles).Some? <==> Kept(rule, ms[k], user)
      {
        CopyForKept(rule, ms[k], user, profiles);
      }
      assert forall k :: 0 <= k < |p| ==> p[k] == ms[k];
    }
  }

  // ---------------------------------------------------------------------------------------------
  // The list selectors
  // ---------------------------------------------------------------------------------------------

  /** `ObjectMapper.deserialize(MeetingModel, m)` then `setProfile(p)`: a new meeting, the original untouched. */
  method CopyWithProfile(m: MeetingModel, p: Option<Profile>) returns (copy: MeetingModel)
    ensures fresh(copy)
    ensures copy.Data() == m.Data().(profile := p)
  {
    copy := new MeetingModel(m.id, m.requestedBy, m.requestedTo, m.profile);
    copy.SetProfile(p);
  }

  /**
   * The `forEach` loop of both list selectors: for each meeting in order, a copy with the
   * requester's profile when the user did not request it; for upcoming meetings, otherwise a
   * copy with the recipient's profile when the user is not the recipient. The store's own
   * meetings are not changed.
   */
  method CopyKept(rule: Rule, ms: seq<MeetingModel>, user: string, profiles: map<string, Profile>)
    returns (copies: seq<MeetingModel>)
    ensures Snapshot(copies) == Collect(rule, Snapshot(ms), user, profiles)
    ensures forall m :: m in copies ==> fresh(m)
  {
    copies := [];
    ghost var before := Snapshot(ms);
    for k := 0 to |ms|
      invariant Snapshot(ms) == before
      invariant forall m :: m in copies ==> fresh(m)
      invariant Snapshot(copies) == Collect(rule, before[..k], user, profiles)
    {
      ghost var done := Snapshot(copies);
      var more := CopyOne(rule, ms[k], user, profiles);
      assert Snapshot(copies) == done && more[..] == more;
      CollectStep(rule, before, k, user, profiles);
      SnapshotConcat(copies, more);
      copies := copies + more;
    }
    WholePrefix(before);
  }

  /** The body of the `forEach` loop for one meeting: its copy with the other participant's profile, or nothing. */
  method CopyOne(rule: Rule, m: MeetingModel, user: string, profiles: map<string, Profile>) returns (out: seq<MeetingModel>)
    ensures Snapshot(out) == Piece(rule, m.Data(), user, profiles)
    ensures forall x :: x in out ==> fresh(x)
  {
    if m.requestedBy != user {
      var copy := CopyWithProfile(m, ProfileById(profiles, m.requestedBy));
      out := [copy];
    } else if rule.Upcoming? && m.requestedTo != user {
      var copy := CopyWithProfile(m, ProfileById(profiles, m.requestedTo));
      out := [copy];
    } else {
      out := [];
    }
  }

  /** Collecting one more meeting appends its piece. */
  lemma CollectStep(rule: Rule, ms: seq<MeetingData>, k: nat, user: string, profiles: map<string, Profile>)
    requires k < |ms|
    ensures Collect(rule, ms[..k + 1], user, profiles) == Collect(rule, ms[..k], user, profiles) + Piece(rule, ms[k], user, profiles)
  {
    assert ms[..k + 1][..k] == ms[..k];
  }

  lemma SnapshotConcat(a: seq<MeetingModel>, b: seq<MeetingModel>)
    ensures Snapshot(a + b) == Snapshot(a) + Snapshot(b)
  {
  }

  /**
   * `getMeetingRequests`: `[]` when the meetings slice is missing; otherwise a fresh copy of each
   * pending meeting the user did not request, in order, each with its requester's profile.
   */
  method GetMeetingRequests(st: RootState) returns (r: seq<MeetingModel>)
    ensures st.meetings.None? ==> r == []
    ensures st.meetings.Some? ==>
      Snapshot(r) == Collect(Requests, Snapshot(st.meetings.value.pending), st.userProfileId, st.profiles)
    ensures forall m :: m in r ==> fresh(m)
  {
    if st.meetings.None? {
      return [];
    }
    r := CopyKept(Requests, st.meetings.value.pending, st.userProfileId, st.profiles);
  }

  /**
   * `getUpcomingMeetingsSelector`: `[]` when the slice is missing; otherwise fresh copies of the
   * upcoming meetings that have a participant other than the user, in order, each with that
   * participant's profile, cut to the first `limit` (`UPCOMING_MEETINGS_LIMIT`).
   */
  method GetUpcomingMeetings(st: RootState, limit: nat) returns (r: seq<MeetingModel>)
    ensures st.meetings.None? ==> r == []
    ensures st.meetings.Some? ==>
      Snapshot(r) == Take(Collect(Upcoming, Snapshot(st.meetings.value.upcomingMeetings), st.userProfileId, st.profiles), limit)
    ensures forall m :: m in r ==> fresh(m)
  {
    if st.meetings.None? {
      return [];
    }
    var copies := CopyKept(Upcoming, st.meetings.value.upcomingMeetings, st.userProfileId, st.profiles);
    r := copies[..if limit < |copies| then limit else |copies|];
    assert forall m :: m in r ==> m in copies;
    assert Snapshot(r) == Snapshot(copies)[..|r|];
  }

  /** `slice(0, n)`. */
  function Take<T>(s: seq<T>, n: nat): (r: seq<T>)
    ensures |r| == if n < |s| then n else |s|
    ensures r <= s
  {
    if n < |s| then s[..n] else s
  }

  // ---------------------------------------------------------------------------------------------
  // The selectors that fill in profiles in place
  // ---------------------------------------------------------------------------------------------

  /** The profile a detail selector leaves on a meeting: the other participant's, or the one it had. */
  function FilledProfile(current: Option<Profile>, requestedBy: string, requestedTo: string, user: string,
                         profiles: map<string, Profile>): (r: Option<Profile>)
    ensures requestedBy != user ==> r == ProfileById(profiles, requestedBy)
    ensures requestedBy == user && requestedTo != user ==> r == ProfileById(profiles, requestedTo)
    ensures requestedBy == user && requestedTo == user ==> r == current
  {
    match Counterparty(requestedBy, requestedTo, user)
    case Some(p) => ProfileById(profiles, p)
    case None => current
  }

  /** Filling in twice is filling in once: the new profile depends on the participants only. */
  lemma FilledProfileIdempotent(current: Option<Profile>, requester: string, recipient: string, user: string,
                                profiles: map<string, Profile>)
    ensures FilledProfile(FilledProfile(current, requester, recipient, user, profiles), requester, recipient, user, profiles) ==
      FilledProfile(current, requester, recipient, user, profiles)
  {
  }

  /** What `getMeetingsDetails` returns: `{}`, `null`, or the stored meeting itself. */
  datatype DetailsResult = EmptyObject | NullMeeting | Found(meeting: MeetingModel)

  /** The meeting object the details slice holds, if any. */
  function StoredDetail(st: RootState): Option<MeetingModel> {
    if st.meetingDetails.Some? then st.meetingDetails.value.meetingDetails else None
  }

  /**
   * `getMeetingsDetails`: `{}` when the details slice is missing, `null` when it holds none;
   * otherwise the stored meeting itself, whose profile is filled in (other participant's) only
   * when it had none.
   */
  method GetMeetingsDetails(st: RootState) returns (r: DetailsResult)
    modifies if StoredDetail(st).Some? then {StoredDetail(st).value} else {}
    ensures st.meetingDetails.None? ==> r == EmptyObject
    ensures st.meetingDetails.Some? && StoredDetail(st).None? ==> r == NullMeeting
    ensures StoredDetail(st).Some? ==>
      var m := StoredDetail(st).value;
      && r == Found(m)
      && m.profile == if old(m.profile).Some? then old(m.profile)
                      else FilledProfile(None, m.requestedBy, m.requestedTo, st.userProfileId, st.profiles)
  {
    if st.meetingDetails.None? {
      return EmptyObject;
    }
    var stored := st.meetingDetails.value.meetingDetails;
    if stored.None? {
      return NullMeeting;
    }
    var meeting := stored.value;
    if meeting.profile.None? {
      var user := st.userProfileId;
      if meeting.requestedBy != user {
        meeting.SetProfile(ProfileById(st.profiles, meeting.requestedBy));
      } else if meeting.requestedTo != user {
        meeting.SetProfile(ProfileById(st.profiles, meeting.requestedTo));
      }
    }
    r := Found(meeting);
  }

  /** The entries `getMeetingsDetailByDate` reads: the stored list, or `[]` when it is `null`. */
  function ByDateList(st: RootState): seq<Option<MeetingModel>> {
    st.calendar.meetingDetailsByDate.GetOr([])
  }

  /** The meeting objects of a list of entries. */
  function Objects(list: seq<Option<MeetingModel>>): set<MeetingModel> {
    set k | 0 <= k < |list| && list[k].Some? :: list[k].value
  }

  /**
   * `getMeetingsDetailByDate`: returns the very list it read (or `[]`), skipping `null` entries;
   * every meeting in it now carries the other participant's profile (a meeting whose both
   * participants are the user keeps its profile), even when it appears more than once.
   */
  method GetMeetingsDetailByDate(st: RootState) returns (r: seq<Option<MeetingModel>>)
    modifies Objects(ByDateList(st))
    ensures r == ByDateList(st)
    ensures forall k :: 0 <= k < |r| && r[k].Some? ==>
      r[k].value.profile == FilledProfile(old(r[k].value.profile), r[k].value.requestedBy, r[k].value.requestedTo,
                                          st.userProfileId, st.profiles)
  {
    var list := ByDateList(st);
    var user := st.userProfileId;
    for k := 0 to |list|
      invariant forall j :: 0 <= j < |list| && list[j].Some? ==>
        var m := list[j].value;
        var filled := FilledProfile(old(m.profile), m.requestedBy, m.requestedTo, user, st.profiles);
        m.profile == filled || (m.profile == old(m.profile) && forall i :: 0 <= i < k && list[i].Some? ==> list[i].value != m)
    {
      if list[k].Some? {
        var details := list[k].value;
        if details.requestedBy != user {
          details.SetProfile(ProfileById(st.profiles, details.requestedBy));
        } else if details.requestedTo != user {
          details.SetProfile(ProfileById(st.profiles, details.requestedTo));
        }
      }
    }
    r := list;
  }

  // ---------------------------------------------------------------------------------------------
  // Defaulting getters
  // ---------------------------------------------------------------------------------------------

  /** An error slot read through a falsiness test: `null` and `''` both read as `''`. */
  function ErrorText(slot: Option<string>): (r: string)
    ensures slot.None? ==> r == ""
    ensures slot.Some? ==> r == slot.value
  {
    if slot.None? || slot.value == "" then "" else slot.value
  }

  /** `getUpcomingMeetingsError`: `''` without a slice or an error, else the error. */
  function UpcomingMeetingsError(st: RootState): (r: string)
    ensures st.meetings.None? || st.meetings.value.error.upcomingMeetings.None? ==> r == ""
    ensures st.meetings.Some? && st.meetings.value.error.upcomingMeetings.Some? ==> r == st.meetings.value.error.upcomingMeetings.value
  {
    if st.meetings.None? then "" else ErrorText(st.meetings.value.error.upcomingMeetings)
  }

  /** `getPendingMeetingsError`: `''` without a slice or an error, else the error. */
  function PendingMeetingsError(st: RootState): (r: string)
    ensures st.meetings.None? || st.meetings.value.error.pending.None? ==> r == ""
    ensures st.meetings.Some? && st.meetings.value.error.pending.Some? ==> r == st.meetings.value.error.pending.value
  {
    if st.meetings.None? then "" else ErrorText(st.meetings.value.error.pending)
  }

  /** `getUpdateMeetingStatusError`: `''` without a slice or an error, else the error. */
  function UpdateMeetingStatusError(st: RootState): (r: string)
    ensures st.meetings.None? || st.meetings.value.error.updateStatus.None? ==> r == ""
    ensures st.meetings.Some? && st.meetings.value.error.updateStatus.Some? ==> r == st.meetings.value.error.updateStatus.value
  {
    if st.meetings.None? then "" else ErrorText(st.meetings.value.error.updateStatus)
  }

  /** `getLoading`: the upcoming-meetings loader, `false` when missing. */
  function Loading(st: RootState): (r: bool)
    ensures st.meetings.None? ==> !r
    ensures st.meetings.Some? ==> r == st.meetings.value.loaders.upcomingMeetings
  {
    st.meetings.Some? && st.meetings.value.loaders.upcomingMeetings
  }

  /** `getPendingMeetingsLoading`: the pending loader, `false` when missing. */
  function PendingMeetingsLoading(st: RootState): (r: bool)
    ensures st.meetings.None? ==> !r
    ensures st.meetings.Some? ==> r == st.meetings.value.loaders.pending
  {
    st.meetings.Some? && st.meetings.value.loaders.pending
  }

  /** `getUpdateMeetingStatusLoading`: the status-update loader, `false` when missing. */
  function UpdateMeetingStatusLoading(st: RootState): (r: bool)
    ensures st.meetings.None? ==> !r
    ensures st.meetings.Some? ==> r == st.meetings.value.loaders.updateStatus
  {
    st.meetings.Some? && st.meetings.value.loaders.updateStatus
  }

  /** `getSeeAllDataLoading`: the see-all loader, `false` when missing. */
  function SeeAllDataLoading(st: RootState): (r: bool)
    ensures st.meetings.None? ==> !r
    ensures st.meetings.Some? ==> r == st.meetings.value.loaders.seeAllData
  {
    st.meetings.Some? && st.meetings.value.loaders.seeAllData
  }

  /** `getMeetingDetailsLoading`: the details loader, `false` when the details slice is missing. */
  function MeetingDetailsLoading(st: RootState): (r: bool)
    ensures st.meetingDetails.None? ==> !r
    ensures st.meetingDetails.Some? ==> r == st.meetingDetails.value.loading
  {
    st.meetingDetails.Some? && st.meetingDetails.value.loading
  }

  /** `getIsLastPageReached`: `true` when the slice is missing, so paging stops. */
  function IsLastPageReached(st: RootState): (r: bool)
    ensures st.meetings.None? ==> r
    ensures st.meetings.Some? ==> r == st.meetings.value.isLastMeetingRequestPage
  {
    st.meetings.None? || st.meetings.value.isLastMeetingRequestPage
  }

  /** `getIsMeetingCreated`: an empty status when the slice is missing. */
  function IsMeetingCreated(st: RootState): (r: CreateStatus)
    ensures st.meetings.None? ==> r == CreateStatus("", "")
    ensures st.meetings.Some? ==> r == st.meetings.value.isMeetingCreated
  {
    if st.meetings.None? then CreateStatus("", "") else st.meetings.value.isMeetingCreated
  }

  /** `getMeetingCreatedLoading`: `false` until a create action has set the loader. */
  function MeetingCreatedLoading(st: RootState): (r: bool)
    ensures st.meetings.None? || st.meetings.value.loaders.createMeeting.None? ==> !r
    ensures st.meetings.Some? && st.meetings.value.loaders.createMeeting.Some? ==> r == st.meetings.value.loaders.createMeeting.value
  {
    st.meetings.Some? && st.meetings.value.loaders.createMeeting.GetOr(false)
  }

  /**
   * With the meetings slice missing, every getter gives its default: no error text, nothing
   * loading, the last page reached, no create status.
   */
  lemma MissingSliceDefaults(st: RootState)
    requires st.meetings.None?
    ensures UpcomingMeetingsError(st) == "" && PendingMeetingsError(st) == "" && UpdateMeetingStatusError(st) == ""
    ensures !Loading(st) && !PendingMeetingsLoading(st) && !UpdateMeetingStatusLoading(st) && !SeeAllDataLoading(st)
    ensures IsLastPageReached(st)
    ensures IsMeetingCreated(st) == CreateStatus("", "") && !MeetingCreatedLoading(st)
  {
  }

  /**
   * Over the initial meetings slice the getters read: no error, upcoming meetings and the
   * see-all list loading, more request pages to fetch, and no create request in flight.
   */
  lemma InitialSliceReads(st: RootState)
    requires st.meetings == Some(InitialMeetingState)
    ensures UpcomingMeetingsError(st) == "" && PendingMeetingsError(st) == "" && UpdateMeetingStatusError(st) == ""
    ensures Loading(st) && SeeAllDataLoading(st) && !PendingMeetingsLoading(st) && !UpdateMeetingStatusLoading(st)
    ensures !IsLastPageReached(st)
    ensures IsMeetingCreated(st) == CreateStatus("", "") && !MeetingCreatedLoading(st)
  {
  }

  /** A failure's message written by the reducer is what the matching error getter reads back. */
  lemma FailureReadsBack(st: RootState, e: string)
    requires st.meetings.Some?
    ensures var s := st.meetings.value;
      && UpcomingMeetingsError(st.(meetings := Some(MeetingsReducer(s, FetchUpcomingFailure(e))))) == e
      && PendingMeetingsError(st.(meetings := Some(MeetingsReducer(s, FetchPendingFailure(e))))) == e
      && UpdateMeetingStatusError(st.(meetings := Some(MeetingsReducer(s, UpdateStatusFailure(e))))) == e
      && !Loading(st.(meetings := Some(MeetingsReducer(s, FetchUpcomingFailure(e)))))
      && !PendingMeetingsLoading(st.(meetings := Some(MeetingsReducer(s, FetchPendingFailure(e)))))
  {
  }

  /** The create loader and status as the create screen reads them after each create action. */
  lemma CreateFlowReads(st: RootState, profileId: string, data: NewMeeting, message: string)
    requires st.meetings.Some?
    ensures var s := st.meetings.value;
      && MeetingCreatedLoading(st.(meetings := Some(MeetingsReducer(s, CreateMeeting(profileId, data)))))
      && IsMeetingCreated(st.(meetings := Some(MeetingsReducer(s, CreateMeeting(profileId, data))))) == CreateStatus("", "")
      && !MeetingCreatedLoading(st.(meetings := Some(MeetingsReducer(s, CreateMeetingSuccess))))
      && IsMeetingCreated(st.(meetings := Some(MeetingsReducer(s, CreateMeetingSuccess)))).status == "SUCCESS"
      && IsMeetingCreated(st.(meetings := Some(MeetingsReducer(s, CreateMeetingFailure(message))))) == CreateStatus("FAILURE", message)
  {
    var s := st.meetings.value;
    CreateStep(s, CreateMeeting(profileId, data));
    CreateStep(s, CreateMeetingSuccess);
    CreateStep(s, CreateMeetingFailure(message));
  }
}
