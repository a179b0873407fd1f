# Meetings: calendar layout, meeting store and meeting creation

This project models the core of a React Native "meetings" feature in Dafny.

- **Packer** (`components/calendar/Packer.tsx`) is the day-calendar layout engine. It tags each
  meeting with its input position and sorts the meetings by start and then end. It sweeps them
  into clusters of overlapping meetings, and places each meeting in the first column of its
  cluster whose last meeting it does not collide with. A meeting then widens to the right over
  every following column it does not hit. The engine turns each meeting into a rectangle
  (`top`, `height`, `left`, `width`) at 100 pixels per hour with a 10-pixel gutter.
- **DayView** (`components/calendar/DayView.tsx`) is the day screen. It has the hour rows and
  their 12h/24h labels, the hour and half-hour touch lines, a tap that sets the selected date's
  time and opens the creation screen, the initial scroll position, the clamp of a meeting that
  starts on another day, and the rule that shows a summary line in a tall enough event.
- **Reducer** (`reducer.ts`) holds the three Redux slices: meetings (pending requests, upcoming
  meetings, paging, creation status, loaders, errors), meeting details, and meetings by date.
- **Selectors** (`selectors.ts`) reads those slices. It copies meetings and attaches the other
  participant's profile. It also mutates the stored meetings' profile in place, and reads each
  loader and error with its default.
- **CreateMeeting** (`components/CreateMeeting/CreateMeetingContainer.tsx`) is the creation
  form. It keeps the accordion flags so that one picker is open at a time, validates the form
  (blank title, missing recipient), and builds the `CREATE_MEETING` payload: the meeting type
  from the location, and the end time as the start plus `parseInt(duration)` minutes.

Conventions:

- Instants are whole minutes since a local epoch. Day boundaries are multiples of 1440.
- Pixel quantities are exact reals.
- A field the source reads as `undefined`, `null` or falsy is an explicit `Option`.
- `MeetingModel` is a class because the selectors write its profile in place. The layout
  engine, the reducers and the form logic are pure functions over datatypes.
- The loops of the layout engine (`populateEvents`, `pack`, `expand`, the column search) are
  methods. Each is proved equal to a specification function, and the properties are proved
  about those functions.

## Model

| member | source | states |
|---|---|---|
| Packer.Tag | components/calendar/Packer.tsx:66 | every meeting keeps its input position as `index` and its own start and end |
| Packer.Collide | components/calendar/Packer.tsx:25-27 | for two meetings that each last at least a minute, colliding is exactly sharing a minute |
| Packer.Compare | components/calendar/Packer.tsx:67-81 | the comparator is -1/0/1: zero exactly when start and end are equal, negative exactly when the first starts earlier or starts together and ends earlier |
| Packer.SortByTime | components/calendar/Packer.tsx:67-81 | the result is ordered by the comparator and is a permutation of the input |
| Packer.Insert | components/calendar/Packer.tsx:67-81 | inserting into an ordered list keeps it ordered and adds exactly that meeting |
| Packer.FirstFreeFrom | components/calendar/Packer.tsx:93-101 | the chosen column is the first whose last meeting does not collide with the new one; every column before it collides |
| Packer.Place | components/calendar/Packer.tsx:93-105 | the column-search loop yields the same columns as the specification `PlaceEvent` |
| Packer.PlaceEventSize | components/calendar/Packer.tsx:93-105 | placing a meeting adds exactly one meeting to the cluster |
| Packer.Step | components/calendar/Packer.tsx:86-111 | one sweep iteration: the closed clusters stay, or gain exactly the open one; `lastEnd` afterwards covers the new meeting's end and, while the cluster stays open, never decreases |
| Packer.StepSize | components/calendar/Packer.tsx:86-111 | one sweep iteration adds exactly one meeting to the closed and open clusters together |
| Packer.SweepSize | components/calendar/Packer.tsx:86-111 | after any prefix, the closed and open clusters hold exactly as many meetings as the sweep has seen |
| Packer.SweepOf | components/calendar/Packer.tsx:86-111 | the open cluster has no empty column, and it is empty exactly when no meeting was seen |
| Packer.Span | components/calendar/Packer.tsx:29-44 | the span is at least 1 and stays within the cluster; no column it covers after the first holds a colliding meeting; the column just past it does |
| Packer.Expand | components/calendar/Packer.tsx:29-44 | the `expand` loop computes exactly that span |
| Packer.SpanUnique | components/calendar/Packer.tsx:29-44 | any count with the span's defining properties equals the span |
| Packer.Pack | components/calendar/Packer.tsx:46-59 | the `pack` loops append the rectangles of one cluster, column by column, to those already calculated |
| Packer.PackColumn | components/calendar/Packer.tsx:50-57 | the inner loop of `pack` appends the rectangles of column `i`, one per meeting, in column order |
| Packer.PackEvent | components/calendar/Packer.tsx:51-57 | the inner-loop body yields the rectangle of meeting `j` of column `i`: its span from `expand`, `L` and `W` |
| Packer.DayOrigin | components/calendar/Packer.tsx:11-14 | `dayStartTime` lies `dayStart` hours after the last midnight at or before the meeting's start |
| Packer.Top | components/calendar/Packer.tsx:11-17 | `top` lies between `dayStart` rows above the first row and the bottom of the 24 rows of the meeting's day |
| Packer.Height | components/calendar/Packer.tsx:8-18 | a missing end gives 100 pixels; otherwise the height is zero exactly when the end equals the start, and negative exactly when it is earlier |
| Packer.BuildEvent | components/calendar/Packer.tsx:5-23 | the copy keeps the meeting and takes the given left and width; its bottom edge is its end's offset from `dayStart`:00 of the day it starts on |
| Packer.ColumnsLayoutSize | components/calendar/Packer.tsx:49-58 | `pack` appends one rectangle per meeting of the columns it has done |
| Packer.ClustersLayoutSize | components/calendar/Packer.tsx:86-114 | the packed clusters give one rectangle per meeting they hold |
| Packer.Populate | components/calendar/Packer.tsx:61-116 | `populateEvents` returns one rectangle for every meeting it is given |
| Packer.PopulateEvents | components/calendar/Packer.tsx:61-116 | the imperative sweep returns exactly the layout of the specification `Populate` |
| Packer.ColumnLayout | components/calendar/Packer.tsx:48-57 | one rectangle per meeting of the column |
| PackerProofs.EveryMeetingLaidOutOnce | components/calendar/Packer.tsx:61-116 | one rectangle per input meeting; the rectangles carry exactly the tagged input meetings, each once, and each `index` leads back to its meeting |
| PackerProofs.StepKeepsAll | components/calendar/Packer.tsx:86-111 | one sweep step adds the new meeting once to what the sweep holds and loses nothing |
| PackerProofs.PopulateColumnsNeverOverlap | components/calendar/Packer.tsx:93-105 | when every meeting starts before it ends, no two meetings in one column overlap |
| PackerProofs.ColumnsNeverOverlap | components/calendar/Packer.tsx:93-105 | the same for any sorted list of well-formed meetings |
| PackerProofs.SweepColumnsAreChains | components/calendar/Packer.tsx:93-105 | each column, open or closed, is a chain: each meeting ends before the next starts |
| PackerProofs.SweepLastEndIsMax | components/calendar/Packer.tsx:107-109 | `lastEventEnding` is the latest end among the meetings of the open cluster |
| PackerProofs.StepLastEndIsMax | components/calendar/Packer.tsx:107-109 | one sweep step keeps `lastEventEnding` the latest end of the open cluster |
| PackerProofs.ClosesExactlyAtLastEnd | components/calendar/Packer.tsx:87-91 | when `lastEnd` is the latest end of the open cluster, a cluster is closed exactly when one is open and the next meeting starts at or after every end in it; that meeting then opens a fresh one-column cluster |
| PackerProofs.ClustersNeverCollide | components/calendar/Packer.tsx:87-91 | every meeting of an earlier cluster ends before any meeting of a later cluster starts, so they never collide |
| PackerProofs.SpanReachesEnd | components/calendar/Packer.tsx:29-44 | the span reaches the last column exactly when no later column holds a colliding meeting |
| PackerProofs.LastColumnSpansOne | components/calendar/Packer.tsx:29-44 | a meeting in the last column spans one column |
| PackerProofs.HorizontalBounds | components/calendar/Packer.tsx:53-54 | a rectangle's left is non-negative, and its right edge plus gutter is the column boundary `width*(i+span)/n`, within the width |
| PackerProofs.OneColumnFullWidth | components/calendar/Packer.tsx:53-54 | a lone column starts at 0 and is the full width less the gutter |
| PackerProofs.LayoutGeometry | components/calendar/Packer.tsx:5-23 | every rectangle lies inside the day column, and its top and height come from its own start and end |
| PackerProofs.TopFromDayStart | components/calendar/Packer.tsx:11-17 | `top` is the minutes from the configured first hour at 100/60 pixels a minute; it is non-negative exactly when the meeting starts at or after that hour |
| PackerProofs.MissingEndIsOneHour | components/calendar/Packer.tsx:8-10 | a meeting without an end is one hour (100 pixels) tall |
| PackerProofs.BackToBackStack | components/calendar/Packer.tsx:11-18 | a meeting that starts when another ends, on the same day, starts exactly at the other's bottom edge |
| DayView.RowsAsWritten | components/calendar/DayView.tsx:29-32 | `range(start, end + 1)` gives `end + 1` rows from `start` to `start + end` |
| DayView.Range | components/calendar/DayView.tsx:29-32 | `range(from, to)` is `to` consecutive integers starting at `from` |
| DayView.HourRows | components/calendar/DayView.tsx:62 | the intended rows: one per hour from `start` to `end` inclusive |
| DayView.RowsAgreeFromMidnight | components/calendar/DayView.tsx:62 | both agree when the day starts at midnight |
| DayView.HourLabel | components/calendar/DayView.tsx:63-74 | 12-hour mode always gives a clock label; 24-hour mode gives a bare number exactly on the rows other than the first; a clock label on the first row or on an hour from 1 to 24 names an hour from 1 to 12 |
| DayView.RowsOverrunFromEight | components/calendar/DayView.tsx:62 | from 8 to 20 the written rows run to hour 28, past the bottom of the calendar |
| DayView.StartRowReadsMidnight | components/calendar/DayView.tsx:63-65 | the first row always reads "12 AM" |
| DayView.TwelveHourLabelsNameTheHour | components/calendar/DayView.tsx:63-74 | over a midnight-to-midnight day, each 12h label is 1..12 with AM/PM and names hour `i mod 24` |
| DayView.TwentyFourHourLabels | components/calendar/DayView.tsx:66-74 | in 24h mode each row other than the first shows `i mod 24` |
| DayView.Lines | components/calendar/DayView.tsx:58-108 | one line per intended row, carrying its hour and label |
| DayView.LinesEveryHundredPixels | components/calendar/DayView.tsx:58-103 | hour lines sit 100 pixels apart from 0, and half-hour lines 50 pixels below them |
| DayView.WithTime | components/calendar/DayView.tsx:81 | `setHours(h, m, 0, 0)` keeps the day and sets the time of day to h:m |
| DayView.SelectedDate.SetHours | components/calendar/DayView.tsx:80-81 | the selected date is mutated in place to that instant |
| DayView.PressLine | components/calendar/DayView.tsx:76-85 | a tap on the hour-24 row does nothing; otherwise it sets the date's time and navigates with that instant |
| DayView.MinOf | components/calendar/DayView.tsx:42 | the minimum is one of the tops and no greater than any of them |
| DayView.Tops | components/calendar/DayView.tsx:42 | the tops of the packed events, one per event, in order |
| DayView.InitialScroll | components/calendar/DayView.tsx:41-44 | the scroll is never negative; when positive, one row above it is the top of some meeting and no meeting starts higher |
| DayView.ScrollShowsEarliest | components/calendar/DayView.tsx:38-44 | the initial scroll is never negative; it is 0 exactly when some meeting is drawn within 100 pixels of the top; otherwise the earliest meeting sits exactly one hour row below it |
| DayView.EventStyle | components/calendar/DayView.tsx:117-126 | left and width are kept; a meeting from another day at 2350 pixels is drawn at the top, 49 pixels tall; any other keeps its top and height |
| DayView.EdgeCase | components/calendar/DayView.tsx:118-120 | for a rectangle laid out from midnight, the flag is set exactly for a meeting at 23:30 of a day other than the selected one |
| DayView.NumberOfLines | components/calendar/DayView.tsx:131 | the count of whole 17-pixel lines that fit the height: that many fit and one more does not |
| DayView.ClampOnlyAtLastHalfHour | components/calendar/DayView.tsx:118-120 | for a rectangle from the engine, the clamp applies exactly to a meeting of a day other than the selected one that starts 23 h 30 after `dayStart`:00 |
| DayView.ShowsSummary | components/calendar/DayView.tsx:131-146 | a summary line is shown exactly when the event is at least two 17-pixel lines tall |
| DayView.SummaryFromTwentyOneMinutes | components/calendar/DayView.tsx:131-146 | with an end, that is exactly a meeting of 21 minutes or more |
| DayView.DayViewState.constructor | components/calendar/DayView.tsx:36-49 | the height is 100 pixels per hour; the packed events are the engine's layout at width less the 59-pixel margin; the scroll is the initial position |
| DayView.DayViewState.ReceiveProps | components/calendar/DayView.tsx:51-56 | new props re-run the engine and change nothing else |
| Reducer.UnhandledLeavesState | reducer.ts:193-194 | each reducer returns its state unchanged for actions it does not handle |
| Reducer.MeetingsReducer | reducer.ts:92-196 | an unhandled action returns the state itself; the pending list changes only on the pending, status-update and initial-call actions, the upcoming list only on the upcoming and status-update actions, the create status only on the create actions |
| Reducer.DetailedMeetingsReducer | reducer.ts:198-221 | the details loader is on after a fetch and off after its success or failure, and kept otherwise; the stored meeting changes only on success; the status never changes |
| Reducer.CalendarReducer | reducer.ts:223-246 | the by-date loader is on after a fetch and off after its success or failure, and kept otherwise; the list changes only on success; the status never changes |
| Reducer.RemoveId | reducer.ts:119-124 | no meeting with that id survives the filter, and a list without that id comes back as it was |
| Reducer.FetchPendingLoads | reducer.ts:94-100 | `FETCH_PENDING` raises the pending and see-all loaders, and empties the list only on a refresh |
| Reducer.FetchPendingAppends | reducer.ts:101-106 | a fetched page is appended after the pending meetings, and both loaders drop |
| Reducer.RemoveIdMembers | reducer.ts:119-124 | the filter keeps exactly the meetings whose id differs |
| Reducer.RemoveIdKeepsOrder | reducer.ts:119-124 | the filter is an order-preserving subsequence |
| Reducer.RemoveIdIdempotent | reducer.ts:119-124 | filtering twice is filtering once |
| Reducer.UpdateStatusSuccessRemoves | reducer.ts:118-130 | a status update removes the meeting from both lists and clears the update loader |
| Reducer.UpdateStatusSuccessStep | reducer.ts:118-130 | `UPDATE_STATUS_SUCCESS` filters both lists by the id and clears only the update loader |
| Reducer.UpcomingReplaces | reducer.ts:137-148 | fetching upcoming meetings clears the list and raises the loader; success replaces the list and drops the loader |
| Reducer.FailuresTouchOnlyTheirSlot | reducer.ts:107-112 | every failure action writes only its own error slot and drops only its own loader |
| Reducer.PagingFlags | reducer.ts:155-165 | the initial call resets the last-page flag and replaces the pending list; the last-page action sets the flag |
| Reducer.PendingOnlyGrows | reducer.ts:94-106 | without a refresh, an initial call or a status update, the pending list only grows by appending |
| Reducer.CreateStatusFollowsLastCreateAction | reducer.ts:166-192 | the creation status and loader after any action sequence are those set by the last creation action, or unchanged if there is none |
| Reducer.CreateStep | reducer.ts:166-192 | a create action sets the status it names and the loader (on only for `CREATE_MEETING`); any other action leaves both alone |
| Reducer.DetailsLoaderTracksFetch | reducer.ts:198-221 | from the initial state, the details loader is on exactly while the last details action is a fetch, or there is none |
| Reducer.CalendarLoaderTracksFetch | reducer.ts:223-246 | from the initial state, the by-date loader is on exactly while the last by-date action is a fetch, or there is none |
| Selectors.Counterparty | selectors.ts:32-39 | the profile shown is the requester's unless that is the user, then the recipient's; none exactly when both are the user |
| Selectors.CopyFor | selectors.ts:31-40 | a copy differs from its meeting only in the profile |
| Selectors.Collect | selectors.ts:14-20 | no longer than the input, and every collected meeting is one the rule keeps |
| Selectors.CopyForKept | selectors.ts:14-19 | a meeting is copied exactly when the rule keeps it, with the other participant's profile |
| Selectors.CollectConcat | selectors.ts:14-20 | collecting distributes over concatenation |
| Selectors.CollectMembers | selectors.ts:14-20 | a collected meeting is the copy of a kept input meeting, and every kept meeting is collected |
| Selectors.CopyWithProfile | selectors.ts:16-17 | a fresh copy with the stored fields and the new profile |
| Meetings.MeetingModel.constructor | selectors.ts:16 | a meeting object holds the id, participants and profile it is given |
| Meetings.MeetingModel.SetProfile | selectors.ts:17 | `setProfile` replaces the profile in place |
| Selectors.CopyOne | selectors.ts:31-40 | one meeting yields its copy with the other participant's profile when the selector keeps it, else nothing |
| Selectors.CopyKept | selectors.ts:14-41 | the `forEach` loop yields fresh copies of exactly the kept meetings, in order, and leaves the stored ones unchanged |
| Selectors.CollectSnoc | selectors.ts:14-20 | one more meeting appends its piece to the list |
| Selectors.GetMeetingRequests | selectors.ts:6-22 | no slice gives `[]`; otherwise fresh copies of the requests not made by the user, in order, each with the requester's profile |
| Selectors.GetUpcomingMeetings | selectors.ts:24-43 | fresh copies of the meetings with another participant, with that participant's profile, cut at the limit |
| Selectors.Take | selectors.ts:42 | a prefix of length `min(n, length)` |
| Selectors.FilledProfile | selectors.ts:50-57 | the requester's profile when the requester is not the user, else the recipient's when the recipient is not the user, else the profile the meeting had |
| Selectors.FilledProfileIdempotent | selectors.ts:50-57 | filling in the profile twice is the same as once |
| Selectors.GetMeetingsDetails | selectors.ts:45-59 | a missing slice gives `{}`; a null meeting stays null; a stored meeting without a profile gets the other participant's, in place |
| Selectors.GetMeetingsDetailByDate | selectors.ts:127-141 | returns the stored list itself, with each present meeting's profile set in place to the other participant's |
| Selectors.ErrorText | selectors.ts:61-66 | an absent error reads as the empty string |
| Selectors.UpcomingMeetingsError | selectors.ts:61-66 | `''` without a slice or an error, else the stored error |
| Selectors.Loading | selectors.ts:68-74 | `false` without a slice, else the upcoming-meetings loader |
| Selectors.PendingMeetingsError | selectors.ts:76-81 | `''` without a slice or an error, else the stored error |
| Selectors.PendingMeetingsLoading | selectors.ts:83-88 | `false` without a slice, else the pending loader |
| Selectors.UpdateMeetingStatusError | selectors.ts:90-95 | `''` without a slice or an error, else the stored error |
| Selectors.UpdateMeetingStatusLoading | selectors.ts:97-102 | `false` without a slice, else the status-update loader |
| Selectors.IsLastPageReached | selectors.ts:104-109 | `true` without a slice, so paging stops; else the stored flag |
| Selectors.SeeAllDataLoading | selectors.ts:111-117 | `false` without a slice, else the see-all loader |
| Selectors.MeetingDetailsLoading | selectors.ts:119-125 | `false` without a details slice, else its loader |
| Selectors.IsMeetingCreated | selectors.ts:143-149 | an empty status without a slice, else the stored one |
| Selectors.MeetingCreatedLoading | selectors.ts:151-157 | `false` without a slice or before any create action, else the create loader |
| Selectors.MissingSliceDefaults | selectors.ts:61-117 | with no meetings slice, every getter returns its default, and the last-page flag reads as reached |
| Selectors.InitialSliceReads | selectors.ts:68-117 | on the initial slice, upcoming and see-all loading are on, and all other flags and errors are off |
| Selectors.FailureReadsBack | selectors.ts:61-95 | after a failure action, the matching error getter returns that error; after the upcoming and pending failures, the matching loader reads false |
| Selectors.CreateFlowReads | selectors.ts:143-157 | creating raises the loader with an empty status; success drops the loader and reads SUCCESS; failure reads FAILURE with its message |
| CreateMeeting.CloseOthers | components/CreateMeeting/CreateMeetingContainer.tsx:150-173 | each picker closes the others and keeps its own flag; "addPeople" closes all; other sources change nothing |
| CreateMeeting.CloseOthersOnlyCollapses | components/CreateMeeting/CreateMeetingContainer.tsx:150-173 | no flag is ever opened by closing the others |
| CreateMeeting.CollapsedStaysCollapsed | components/CreateMeeting/CreateMeetingContainer.tsx:150-173 | starting all closed, any sequence of closings keeps all closed |
| CreateMeeting.TrimStart | components/CreateMeeting/CreateMeetingContainer.tsx:224 | removes exactly the leading JavaScript white space |
| CreateMeeting.TrimEnd | components/CreateMeeting/CreateMeetingContainer.tsx:224 | removes exactly the trailing JavaScript white space |
| CreateMeeting.Trim | components/CreateMeeting/CreateMeetingContainer.tsx:224 | the trimmed title is no longer than the title and neither starts nor ends with white space |
| CreateMeeting.TrimEmptyIffBlank | components/CreateMeeting/CreateMeetingContainer.tsx:224 | a title trims to "" exactly when every character is white space |
| CreateMeeting.LeadingDigits | components/CreateMeeting/CreateMeetingContainer.tsx:208 | the longest all-digit prefix |
| CreateMeeting.ParseInt | components/CreateMeeting/CreateMeetingContainer.tsx:208 | a blank string reads as `NaN`; a string starting with a digit reads as a number of at least 0; a negative result needs a minus sign |
| CreateMeeting.ShowValue | components/CreateMeeting/CreateMeetingContainer.tsx:208 | the decimal digits of n read back as n |
| CreateMeeting.ParseIntShow | components/CreateMeeting/CreateMeetingContainer.tsx:208 | `parseInt` of a decimal number is that number |
| CreateMeeting.AnyError | components/CreateMeeting/CreateMeetingContainer.tsx:221-233 | a blank title is reported first, then a missing recipient; no error exactly when both are present |
| CreateMeeting.MeetingTypeFor | components/CreateMeeting/CreateMeetingContainer.tsx:200-206 | "Zoom Call" maps to "zoom" and "In Person" to "Face to Face"; anything else maps to "" |
| CreateMeeting.EndFor | components/CreateMeeting/CreateMeetingContainer.tsx:207-209 | the end is empty exactly when the duration is empty; it is a date exactly when `parseInt` reads the duration, and then it is the start plus that many minutes |
| CreateMeeting.EndIsStartPlusDuration | components/CreateMeeting/CreateMeetingContainer.tsx:207-209 | a numeric duration of n gives an end n minutes after the start |
| CreateMeeting.Save | components/CreateMeeting/CreateMeetingContainer.tsx:195-219 | nothing is dispatched exactly when the form has an error; otherwise a create action for the user with the form's fields |
| CreateMeeting.DefaultFormAsksForHalfHourZoom | components/CreateMeeting/CreateMeetingContainer.tsx:52-64 | the untouched form with a title and recipient asks for a 30-minute zoom meeting |
| CreateMeeting.BlankTitleFirst | components/CreateMeeting/CreateMeetingContainer.tsx:196-226 | a blank title blocks saving with the title error, whatever the recipient |
| CreateMeeting.CreateMeetingContainer.constructor | components/CreateMeeting/CreateMeetingContainer.tsx:52-64 | the initial form: empty title, 30 minutes, no recipient, "Zoom Call", all pickers closed |
| CreateMeeting.CreateMeetingContainer.SetTitle | components/CreateMeeting/CreateMeetingContainer.tsx:177-178 | only the title changes |
| CreateMeeting.CreateMeetingContainer.SetMeetingDate | components/CreateMeeting/CreateMeetingContainer.tsx:180-181 | only the date changes |
| CreateMeeting.CreateMeetingContainer.SetDuration | components/CreateMeeting/CreateMeetingContainer.tsx:183-184 | only the duration changes |
| CreateMeeting.CreateMeetingContainer.SetRecipient | components/CreateMeeting/CreateMeetingContainer.tsx:186-187 | only the recipient changes |
| CreateMeeting.CreateMeetingContainer.SetLocation | components/CreateMeeting/CreateMeetingContainer.tsx:189-190 | only the location changes |
| CreateMeeting.CreateMeetingContainer.SetAboutMeeting | components/CreateMeeting/CreateMeetingContainer.tsx:192-193 | only the summary changes |
| CreateMeeting.CreateMeetingContainer.CloseOtherComponent | components/CreateMeeting/CreateMeetingContainer.tsx:150-173 | only the flags change, as `CloseOthers` says; a form with all pickers closed stays that way |
| CreateMeeting.CreateMeetingContainer.HandleSave | components/CreateMeeting/CreateMeetingContainer.tsx:195-219 | dispatches exactly what `Save` gives for the current form |

## Findings

| source | as written | input that shows it | evidently intended | confidence | as-written member | corrected member |
|---|---|---|---|---|---|---|
| components/calendar/DayView.tsx:62 | `range(start, end + 1)` builds `end + 1` rows, from hour `start` to hour `start + end` | `start = 8`, `end = 20`: 21 rows, the last for hour 28, drawn at 2000 pixels on a 1200-pixel calendar | one row per hour from `start` to `end` (`end - start + 1` rows); the two agree only when `start = 0`, which is what the calendar screen passes | not executed | DayView.RowsAsWritten, DayView.RowsOverrunFromEight | DayView.HourRows, DayView.Lines |

## Left out

- Time zones, daylight saving, seconds and milliseconds are not modelled: instants are whole local minutes, so the seconds `dayStartTime` keeps from the start do not arise.
- Packer: `buildEvent` returns `undefined` for a meeting without a schedule. The model's meetings always have a start, so that branch is not modelled.
- Packer.SortByTime: `Array.prototype.sort` is a library call. It is modelled as a stable insertion sort with the same comparator, so meetings with equal start and end keep their input order.
- Packer.PopulateEvents: the source writes the computed fields into a shallow copy of each meeting. The model returns a new `Layout` record holding the meeting and its geometry instead.
- PackerProofs.PopulateColumnsNeverOverlap: this requires every meeting to start before it ends. With a zero-length or reversed meeting, the source's "collision" test does not imply overlap.
- Packer: the source compares ISO date strings. The model compares minutes, which agrees for same-format timestamps.
- JavaScript floating-point rounding of pixel values is not modelled: pixels are exact reals.
- The profile store (`getProfileById`, `getUserProfileId`) is not part of this model. The user's id and a profile map are fields of `RootState`.
- `setMeetingValues` on a meeting is not part of this model; `GetMeetingsDetailByDate` sets only the profile.
- `ObjectMapper.deserialize` is modelled as a copy of the meeting's fields.
- `UPCOMING_MEETINGS_LIMIT` is not part of this model: it is the `limit` parameter of `GetUpcomingMeetings`.
- The getters model `undefined` on whole slices and on `loaders.createMeeting`. The other slice fields are always present in the reducers' states, so their `undefined` branches are not modelled.
- DayView.RowsAsWritten: `Array(to)` with a negative `to` throws in JavaScript. That case is excluded by its requirement.
- DayView.DayViewState.constructor: this requires at least one meeting. With none, the source's `_.min([])` is `undefined`, and the scroll position becomes NaN.
- DayView.DayViewState.constructor: this requires `start < end`. The source divides by `end - start`.
- DayView: the label top offset of -6 pixels, the line widths, JSX and styles are not modelled. Neither is `onEventTapped`, which only forwards to a callback.
- DayView.StartRowReadsMidnight: the first row reads "12 AM" even in 24-hour mode, or when the day does not start at midnight. This is modelled as written.
- The creation screen's default date (the next half hour from the clock), `componentDidMount`, `componentDidUpdate`, navigation, `Alert` and `Toast` are not modelled. They need the clock or the UI; the constructor takes the default date as a parameter.
- CreateMeeting.EndFor: a duration that `parseInt` cannot read cannot come from the duration picker, which writes only `'30'` or `'60'` (components/CreateMeeting/MeetingDuration.tsx). What moment makes of `NaN` minutes is not part of this model; the model represents that end by the `InvalidDate` value.
- The sagas and action creators (`sagas.ts`, `actions.ts`) are not part of this model. Actions are a datatype with their payloads.
