/**
 * The create-meeting form (components/CreateMeeting/CreateMeetingContainer.tsx): the form's
 * state, the three "expanded" flags `closeOtherComponent` collapses, validation before saving,
 * and the request `handleSave` dispatches.
 *
 * Instants are whole minutes; the form's default date (the next half hour) is computed from
 * the clock and enters the model as a constructor argument.
 */
module CreateMeeting {
  import opened Wrappers
  import opened Meetings
  import opened Reducer

  // ---------------------------------------------------------------------------------------------
  // Expanded pickers
  // ---------------------------------------------------------------------------------------------

  /** `dateTimeIsExpanded`, `meetingDurationIsExpanded`, `locationIsExpanded`. */
  datatype Expanded = Expanded(dateTime: bool, duration: bool, location: bool)

  const AllCollapsed: Expanded := Expanded(false, false, false)

  /**
   * `closeOtherComponent(from)`: the picker that reports `from` collapses the other pickers and
   * leaves its own flag alone; `'addPeople'` has no flag and collapses all three; any other
   * source changes nothing.
   */
  function CloseOthers(e: Expanded, from: string): (r: Expanded)
    ensures from == "date" ==> r.dateTime == e.dateTime && !r.duration && !r.location
    ensures from == "duration" ==> r.duration == e.duration && !r.dateTime && !r.location
    ensures from == "location" ==> r.location == e.location && !r.dateTime && !r.duration
    ensures from == "addPeople" ==> r == AllCollapsed
    ensures from != "date" && from != "duration" && from != "location" && from != "addPeople" ==> r == e
  {
    if from == "date" then e.(duration := false, location := false)
    else if from == "duration" then e.(dateTime := false, location := false)
    else if from == "addPeople" then AllCollapsed
    else if from == "location" then e.(dateTime := false, duration := false)
    else e
  }

  /** Collapsing never expands a picker, and collapsing twice from the same source is collapsing once. */
  lemma CloseOthersOnlyCollapses(e: Expanded, from: string)
    ensures var r := CloseOthers(e, from);
      && (r.dateTime ==> e.dateTime) && (r.duration ==> e.duration) && (r.location ==> e.location)
      && CloseOthers(r, from) == r
  {
  }

  /** Whatever sources report in whatever order, a fully collapsed form stays collapsed. */
  lemma {:induction false} CollapsedStaysCollapsed(sources: seq<string>)
    ensures CloseAll(AllCollapsed, sources) == AllCollapsed
    decreases |sources|
  {
    if sources != [] {
      CollapsedStaysCollapsed(sources[..|sources| - 1]);
      CloseOthersOnlyCollapses(CloseAll(AllCollapsed, sources[..|sources| - 1]), sources[|sources| - 1]);
    }
  }

  /** The flags after `closeOtherComponent` has been called for each source in turn. */
  function CloseAll(e: Expanded, sources: seq<string>): Expanded
    decreases |sources|
  {
    if sources == [] then e else CloseOthers(CloseAll(e, sources[..|sources| - 1]), sources[|sources| - 1])
  }

  // ---------------------------------------------------------------------------------------------
  // Strings as JavaScript reads them
  // ---------------------------------------------------------------------------------------------

  /** JavaScript's white space and line terminators: what `trim` and `parseInt` skip. */
  predicate IsJsSpace(c: char) {
    var n := c as int;
    n == 0x09 || n == 0x0A || n == 0x0B || n == 0x0C || n == 0x0D || n == 0x20 || n == 0xA0 ||
    n == 0x1680 || (0x2000 <= n <= 0x200A) || n == 0x2028 || n == 0x2029 || n == 0x202F ||
    n == 0x205F || n == 0x3000 || n == 0xFEFF
  }

  /** The string without its leading white space. */
  function TrimStart(s: string): (r: string)
    ensures |r| <= |s| && r == s[|s| - |r|..]
    ensures r == [] || !IsJsSpace(r[0])
    ensures forall i :: 0 <= i < |s| - |r| ==> IsJsSpace(s[i])
  {
    if s == [] || !IsJsSpace(s[0]) then s else TrimStart(s[1..])
  }

  /** The string without its trailing white space. */
  function TrimEnd(s: string): (r: string)
    ensures |r| <= |s| && r == s[..|r|]
    ensures r == [] || !IsJsSpace(r[|r| - 1])
    ensures forall i :: |r| <= i < |s| ==> IsJsSpace(s[i])
  {
    if s == [] || !IsJsSpace(s[|s| - 1]) then s else TrimEnd(s[..|s| - 1])
  }

  /** `trim()`: a piece of the string that neither starts nor ends with white space. */
  function Trim(s: string): (r: string)
    ensures |r| <= |s|
    ensures r != [] ==> !IsJsSpace(r[0]) && !IsJsSpace(r[|r| - 1])
  {
    TrimEnd(TrimStart(s))
  }

  /** A string trims to `''` exactly when every character of it is white space. */
  lemma TrimEmptyIffBlank(s: string)
    ensures Trim(s) == "" <==> forall i :: 0 <= i < |s| ==> IsJsSpace(s[i])
  {
    var t := TrimStart(s);
    if t != [] {
      assert !IsJsSpace(s[|s| - |t|]);
      assert TrimEnd(t) != [] by {
        assert !IsJsSpace(t[0]);
      }
    }
  }

  /** The value of a digit character. */
  function DigitValue(c: char): nat
    requires '0' <= c <= '9'
  {
    c as int - '0' as int
  }

  /** The longest prefix of decimal digits. */
  function LeadingDigits(s: string): (r: string)
    ensures r <= s
    ensures forall i :: 0 <= i < |r| ==> '0' <= r[i] <= '9'
    ensures |r| < |s| ==> !('0' <= s[|r|] <= '9')
  {
    if s == [] || !('0' <= s[0] <= '9') then [] else [s[0]] + LeadingDigits(s[1..])
  }

  /** The number a string of decimal digits spells. */
  function DigitsValue(ds: string): nat
    requires forall i :: 0 <= i < |ds| ==> '0' <= ds[i] <= '9'
    decreases |ds|
  {
    if ds == [] then 0 else DigitsValue(ds[..|ds| - 1]) * 10 + DigitValue(ds[|ds| - 1])
  }

  /**
   * `parseInt(s, 10)`: leading white space skipped, an optional sign, then as many decimal digits
   * as follow; `NaN` (here `None`) when there are none.
   */
  function ParseInt(s: string): (r: Option<int>)
    ensures (forall i :: 0 <= i < |s| ==> IsJsSpace(s[i])) ==> r.None?
    ensures s != [] && '0' <= s[0] <= '9' ==> r.Some? && r.value >= 0
    ensures r.Some? && r.value < 0 ==> '-' in s
  {
    var t := TrimStart(s);
    var negative := t != [] && t[0] == '-';
    var rest := if t != [] && (t[0] == '-' || t[0] == '+') then t[1..] else t;
    var ds := LeadingDigits(rest);
    if ds == [] then None else Some(if negative then -(DigitsValue(ds) as int) else DigitsValue(ds))
  }

  /** The decimal digits of `n`, as a duration picker writes them. */
  function Show(n: nat): (r: string)
    ensures r != [] && forall i :: 0 <= i < |r| ==> '0' <= r[i] <= '9'
  {
    var d := ['0' + ((n % 10) as char)];
    if n < 10 then d else Show(n / 10) + d
  }

  /** The digits of `n` spell `n`. */
  lemma {:induction false} ShowValue(n: nat)
    ensures DigitsValue(Show(n)) == n
  {
    if n >= 10 {
      ShowValue(n / 10);
      assert Show(n)[..|Show(n)| - 1] == Show(n / 10);
    }
  }

  /** A run of digits has itself as its leading digits. */
  lemma {:induction false} AllDigitsLead(s: string)
    requires forall i :: 0 <= i < |s| ==> '0' <= s[i] <= '9'
    ensures LeadingDigits(s) == s
  {
    if s != [] {
      AllDigitsLead(s[1..]);
    }
  }

  /** `parseInt` reads back every whole number a picker writes. */
  lemma ParseIntShow(n: nat)
    ensures ParseInt(Show(n)) == Some(n)
  {
    var s := Show(n);
    assert !IsJsSpace(s[0]);
    assert TrimStart(s) == s;
    AllDigitsLead(s);
    ShowValue(n);
  }

  // ---------------------------------------------------------------------------------------------
  // The form
  // ---------------------------------------------------------------------------------------------

  /** The container's state; `recipient` is `None` while it is the empty object `{}`. */
  datatype FormState = FormState(
    title: string, meetingDate: int, duration: string, recipient: Option<Profile>,
    location: string, aboutMeeting: string, expanded: Expanded)

  /** The state a new form starts in, on its default date. */
  function InitialForm(defaultDate: int): FormState {
    FormState("", defaultDate, "30", None, "Zoom Call", "", AllCollapsed)
  }

  /** The two messages `isAnyError` can alert. */
  datatype FormError = TitleMissing | RecipientMissing

  /** `isAnyError`: the title is checked first, then the recipient. */
  function AnyError(f: FormState): (r: Option<FormError>)
    ensures r == Some(TitleMissing) <==> Trim(f.title) == ""
    ensures r == Some(RecipientMissing) <==> Trim(f.title) != "" && f.recipient.None?
    ensures r.None? <==> Trim(f.title) != "" && f.recipient.Some?
  {
    if Trim(f.title) == "" then Some(TitleMissing)
    else if f.recipient.None? then Some(RecipientMissing)
    else None
  }

  /** The location picker's value as a meeting type. */
  function MeetingTypeFor(location: string): (t: string)
    ensures location == "Zoom Call" <==> t == "zoom"
    ensures location == "In Person" <==> t == "Face to Face"
    ensures location != "Zoom Call" && location != "In Person" <==> t == ""
  {
    if location == "Zoom Call" then "zoom"
    else if location == "In Person" then "Face to Face"
    else ""
  }

  /** `endMeetingDate`: `''` without a duration, else the start plus `parseInt(duration)` minutes. */
  function EndFor(start: int, duration: string): (r: DateText)
    ensures duration == "" <==> r == NoDate
    ensures r.At? <==> duration != "" && ParseInt(duration).Some?
    ensures r.At? ==> r.instant == start + ParseInt(duration).value
  {
    if duration == "" then NoDate
    else match ParseInt(duration)
      case Some(minutes) => At(start + minutes)
      case None => InvalidDate
  }

  /** A picker's duration of `n` minutes ends the meeting `n` minutes after it starts. */
  lemma EndIsStartPlusDuration(start: int, n: nat)
    ensures EndFor(start, Show(n)) == At(start + n)
  {
    ParseIntShow(n);
  }

  /**
   * `handleSave`: nothing is dispatched when `isAnyError` finds an error; otherwise one
   * `createMeeting` action for the user, carrying the title, the recipient's id, the meeting
   * type, the start, the end and the summary.
   */
  function Save(f: FormState, profileId: string): (r: Option<Action>)
    ensures r.None? <==> AnyError(f).Some?
    ensures r.Some? ==>
      && r.value.CreateMeeting?
      && r.value.profileId == profileId
      && f.recipient.Some?
      && r.value.meetingData == NewMeeting(
           f.recipient.value.profileId, MeetingTypeFor(f.location), f.title,
           f.meetingDate, EndFor(f.meetingDate, f.duration), f.aboutMeeting)
  {
    if AnyError(f).Some? then None
    else
      Some(CreateMeeting(profileId, NewMeeting(
        f.recipient.value.profileId, MeetingTypeFor(f.location), f.title,
        f.meetingDate, EndFor(f.meetingDate, f.duration), f.aboutMeeting)))
  }

  /**
   * A form left at its defaults, with a title and a recipient, asks for a 30-minute Zoom meeting
   * from the default date, with an empty summary.
   */
  lemma DefaultFormAsksForHalfHourZoom(defaultDate: int, title: string, recipient: Profile, profileId: string)
    requires Trim(title) != ""
    ensures Save(InitialForm(defaultDate).(title := title, recipient := Some(recipient)), profileId) ==
      Some(CreateMeeting(profileId, NewMeeting(recipient.profileId, "zoom", title, defaultDate, At(defaultDate + 30), "")))
  {
    assert "30" == Show(30);
    EndIsStartPlusDuration(defaultDate, 30);
  }

  /** A blank title is reported before a missing recipient, and nothing is dispatched. */
  lemma BlankTitleFirst(f: FormState, profileId: string)
    requires forall i :: 0 <= i < |f.title| ==> IsJsSpace(f.title[i])
    ensures AnyError(f) == Some(TitleMissing) && Save(f, profileId).None?
  {
    TrimEmptyIffBlank(f.title);
  }

  /** The container component: its state record, replaced field by field through `setState`. */
  class CreateMeetingContainer {
    var state: FormState

    /** The flags are all collapsed: no path in the container ever sets one. */
    predicate Collapsed()
      reads this
    {
      state.expanded == AllCollapsed
    }

    constructor (defaultDate: int)
      ensures state == InitialForm(defaultDate) && Collapsed()
    {
      state := InitialForm(defaultDate);
    }

    method SetTitle(text: string)
      modifies this
      ensures state == old(state).(title := text)
    {
      state := state.(title := text);
    }

    method SetMeetingDate(date: int)
      modifies this
      ensures state == old(state).(meetingDate := date)
    {
      state := state.(meetingDate := date);
    }

    method SetDuration(duration: string)
      modifies this
      ensures state == old(state).(duration := duration)
    {
      state := state.(duration := duration);
    }

    method SetRecipient(profile: Profile)
      modifies this
      ensures state == old(state).(recipient := Some(profile))
    {
      state := state.(recipient := Some(profile));
    }

    method SetLocation(location: string)
      modifies this
      ensures state == old(state).(location := location)
    {
      state := state.(location := location);
    }

    method SetAboutMeeting(details: string)
      modifies this
      ensures state == old(state).(aboutMeeting := details)
    {
      state := state.(aboutMeeting := details);
    }

    /** `closeOtherComponent`: only the flags change, and a collapsed form stays collapsed. */
    method CloseOtherComponent(from: string)
      modifies this
      ensures state == old(state).(expanded := CloseOthers(old(state).expanded, from))
      ensures old(Collapsed()) ==> Collapsed()
    {
      state := state.(expanded := CloseOthers(state.expanded, from));
    }

    /** `handleSave`: reads the form and returns the action it dispatches, if any. */
    method HandleSave(profileId: string) returns (dispatched: Option<Action>)
      ensures dispatched.None? <==> AnyError(state).Some?
      ensures dispatched.Some? ==> dispatched.value.CreateMeeting? && dispatched.value.meetingData.title == state.title
      ensures dispatched == Save(state, profileId)
    {
      if AnyError(state).Some? {
        return None;
      }
      var meetingType := "";
      var endMeetingDate := NoDate;
      if state.location == "Zoom Call" {
        meetingType := "zoom";
      } else if state.location == "In Person" {
        meetingType := "Face to Face";
      }
      if state.duration != "" {
        endMeetingDate := EndFor(state.meetingDate, state.duration);
      }
      dispatched := Some(CreateMeeting(profileId, NewMeeting(
        state.recipient.value.profileId, meetingType, state.title,
        state.meetingDate, endMeetingDate, state.aboutMeeting)));
    }
  }
}
