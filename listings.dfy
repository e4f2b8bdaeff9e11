/**
 * The list commands: `workout list` (with its --since/--until date filter
 * and its duration column), `routine list` (with its --folder filter),
 * `exercise list` (table mode) and `workout events` (with its --type
 * filter and its pipe-separated plain output).
 */
module Listings {
  import opened Common
  import opened NumText
  import opened ApiTypes
  import opened Paging
  import opened Dates

  const TitleWidth: int := 30
  const FolderWidth: int := 15

  /** The single-page request: page `page` with PageSize(limit) items, or every page with --all. */
  method FetchListing<T>(listAll: bool, pages: seq<Fetch<T>>, single: Fetch<T>, what: string) returns (r: Result<seq<T>>)
    ensures listAll ==> (r.Ok? <==> forall j :: 0 <= j < |pages| ==> pages[j].Fetched?)
    ensures listAll && r.Ok? ==> r.value == Flatten(pages)
    ensures !listAll ==> r == if single.Fetched? then Ok(single.items) else Err("failed to fetch " + what + ": " + single.msg)
  {
    if listAll {
      r := FetchAll(pages, what);
    } else if single.FetchFailed? {
      r := Err("failed to fetch " + what + ": " + single.msg);
    } else {
      r := Ok(single.items);
    }
  }

  // ---------------------------------------------------------------- workout list: date filter

  /** The --since bound: the first second of that day, when the flag is set and parses. */
  function SinceBound(since: string): (b: Option<int>)
    ensures b.Some? <==> since != "" && ParseDate(since).Some?
    ensures b.Some? ==> b.value == StartSecond(ParseDate(since).value)
  {
    if since == "" then None
    else match ParseDate(since)
      case None => None
      case Some(day) => Some(StartSecond(day))
  }

  /** The --until bound: 24 hours after the start of that day, when the flag is set and parses. */
  function UntilBound(until: string): (b: Option<int>)
    ensures b.Some? <==> until != "" && ParseDate(until).Some?
    ensures b.Some? ==> b.value == StartSecond(ParseDate(until).value) + SecondsPerDay
  {
    if until == "" then None
    else match ParseDate(until)
      case None => None
      case Some(day) => Some(StartSecond(day) + SecondsPerDay)
  }

  /** A workout is kept unless it starts before the lower bound or after the upper bound. */
  predicate InRange(w: Workout, lo: Option<int>, hi: Option<int>)
  {
    !(lo.Some? && w.startTime < lo.value) && !(hi.Some? && w.startTime > hi.value)
  }

  function RangeMatcher(lo: Option<int>, hi: Option<int>): Workout -> bool
  {
    (w: Workout) => InRange(w, lo, hi)
  }

  /** filterByDate: the loop that keeps the workouts within the parsed bounds, in their order. */
  method FilterByDate(workouts: seq<Workout>, since: string, until: string) returns (filtered: seq<Workout>)
    ensures filtered == Filter(workouts, RangeMatcher(SinceBound(since), UntilBound(until)))
  {
    var lo := SinceBound(since);
    var hi := UntilBound(until);
    ghost var m := RangeMatcher(lo, hi);
    filtered := [];
    var i := 0;
    while i < |workouts|
      invariant 0 <= i <= |workouts|
      invariant filtered == Filter(workouts[..i], m)
    {
      assert workouts[..i + 1][..i] == workouts[..i];
      var w := workouts[i];
      if !(lo.Some? && w.startTime < lo.value) && !(hi.Some? && w.startTime > hi.value) {
        filtered := filtered + [w];
      }
      i := i + 1;
    }
    assert workouts[..i] == workouts;
  }

  /**
   * The filter keeps exactly the workouts within both bounds; a bound that is
   * empty or does not parse is ignored, so with neither the list is unchanged.
   */
  lemma DateFilterProperties(workouts: seq<Workout>, since: string, until: string)
    ensures var kept := Filter(workouts, RangeMatcher(SinceBound(since), UntilBound(until)));
      forall w :: w in kept <==> w in workouts && InRange(w, SinceBound(since), UntilBound(until))
    ensures SinceBound(since).None? && UntilBound(until).None? ==> Filter(workouts, RangeMatcher(SinceBound(since), UntilBound(until))) == workouts
  {
    var m := RangeMatcher(SinceBound(since), UntilBound(until));
    FilterMembers(workouts, m);
    if SinceBound(since).None? && UntilBound(until).None? {
      FilterAllPass(workouts, m);
    }
  }

  /**
   * --until takes in the whole day: a workout starting at any second of that
   * day, or at the following midnight, passes; one starting later does not.
   * --since keeps everything from the first second of its day.
   */
  lemma BoundsCoverWholeDays(w: Workout, since: string, until: string)
    requires ParseDate(since).Some? && ParseDate(until).Some?
    ensures w.startTime >= StartSecond(ParseDate(since).value) ==> !(w.startTime < SinceBound(since).value)
    ensures InRange(w, None, UntilBound(until)) <==> w.startTime <= StartSecond(ParseDate(until).value + 1)
  {
  }

  /** The workouts `workout list` shows: the fetched ones, date-filtered when either bound flag is set. */
  method ListWorkouts(listAll: bool, pages: seq<Fetch<Workout>>, single: Fetch<Workout>, since: string, until: string)
    returns (r: Result<seq<Workout>>)
    ensures !listAll ==> (r.Ok? <==> single.Fetched?)
    ensures listAll ==> (r.Ok? <==> forall j :: 0 <= j < |pages| ==> pages[j].Fetched?)
    ensures r.Ok? ==> r.value == Filter(if listAll then Flatten(pages) else single.items, RangeMatcher(SinceBound(since), UntilBound(until)))
  {
    var fetched := FetchListing(listAll, pages, single, "workouts");
    if fetched.Err? {
      return Err(fetched.msg);
    }
    var all := fetched.value;
    if since != "" || until != "" {
      all := FilterByDate(all, since, until);
    } else {
      DateFilterProperties(all, since, until);
    }
    return Ok(all);
  }

  // ---------------------------------------------------------------- workout list: columns

  /** Conversion of a float to int in Go: truncation toward zero. */
  function TruncDiv(a: int, b: int): (q: int)
    requires b > 0
    ensures a >= 0 ==> q == a / b
    ensures a < 0 ==> q == -((-a) / b)
  {
    if a >= 0 then a / b else -((-a) / b)
  }

  /** Go's `%`: the remainder takes the sign of the dividend. */
  function TruncRem(a: int, b: int): (r: int)
    requires b > 0
    ensures a == TruncDiv(a, b) * b + r
    ensures -b < r < b && (a >= 0 ==> r >= 0) && (a <= 0 ==> r <= 0)
    ensures a >= 0 ==> r == a % b
  {
    a - TruncDiv(a, b) * b
  }

  /** formatDuration of a duration of `d` seconds: "Hh Mm" from one hour on, "Mm" below. */
  function FormatDuration(d: int): string
  {
    var hours := TruncDiv(d, 3600);
    var minutes := TruncRem(TruncDiv(d, 60), 60);
    if hours > 0 then IntToString(hours) + "h " + IntToString(minutes) + "m" else IntToString(minutes) + "m"
  }

  /** Hours and minutes of a non-negative duration, as Go's truncating conversions give them. */
  lemma DurationParts(d: int)
    requires d >= 0
    ensures TruncDiv(d, 3600) == d / 3600 && TruncRem(TruncDiv(d, 60), 60) == d / 60 % 60
    ensures d / 3600 == d / 60 / 60
    ensures d < 3600 ==> d / 3600 == 0 && d / 60 % 60 == d / 60
  {
    var m := d / 60;
    DivMod3600(d, m / 60, 60 * (m % 60) + d % 60);
    if d < 3600 {
      DivMod60(m, 0, m);
    }
  }

  /** For non-negative durations the text is whole hours and the remaining whole minutes; leftover seconds are dropped. */
  lemma FormatDurationShape(d: int)
    requires d >= 0
    ensures d >= 3600 ==> FormatDuration(d) == IntToString(d / 3600) + "h " + IntToString(d / 60 % 60) + "m"
    ensures d < 3600 ==> FormatDuration(d) == IntToString(d / 60) + "m"
    ensures FormatDuration(d) == FormatDuration(d - d % 60)
  {
    var e := d - d % 60;
    DurationParts(d);
    DurationParts(e);
    DivMod60(e, d / 60, 0);
    if d >= 3600 {
      assert d / 3600 >= 1;
    }
  }

  lemma HourExample()
    ensures FormatDuration(75 * 60) == "1h 15m"
  {
    FormatDurationShape(75 * 60);
    assert 75 * 60 / 3600 == 1 && 75 * 60 / 60 % 60 == 15;
    assert NatToString(1) == "1";
    assert NatToString(15) == NatToString(1) + [DigitChar(5)] == "15";
  }

  lemma MinutesExample()
    ensures FormatDuration(45 * 60 + 30) == "45m"
  {
    FormatDurationShape(45 * 60 + 30);
    assert (45 * 60 + 30) / 60 == 45;
    assert NatToString(45) == NatToString(4) + [DigitChar(5)] == "45";
  }

  /** A negative duration (end before start) shows a negative minute count. */
  lemma NegativeDurationExample()
    ensures FormatDuration(-90) == "-1m"
  {
    assert TruncDiv(-90, 60) == -1 && TruncRem(-1, 60) == -1;
    assert IntToString(-1) == "-1";
  }

  /** The table row of a workout: ID, title cut to 30, date, duration, exercise count. */
  function WorkoutRow(w: Workout, dateText: int -> string): (row: seq<string>)
    ensures |row| == 5 && row[0] == w.id && row[2] == dateText(w.startTime)
    ensures row[1] == Truncate(w.title, TitleWidth) && |row[1]| <= TitleWidth
    ensures row[3] == FormatDuration(Duration(w)) && row[4] == IntToString(ExerciseCount(w))
  {
    [w.id, Truncate(w.title, TitleWidth), dateText(w.startTime), FormatDuration(Duration(w)), IntToString(ExerciseCount(w))]
  }

  // ---------------------------------------------------------------- routine list

  function FolderMatcher(folder: string): Routine -> bool
  {
    (r: Routine) => r.folderId == Some(folder)
  }

  /** The --folder loop: routines whose folder ID is set and equal to the flag, in order; no flag, no filter. */
  method FilterByFolder(routines: seq<Routine>, folder: string) returns (kept: seq<Routine>)
    ensures folder == "" ==> kept == routines
    ensures folder != "" ==> kept == Filter(routines, FolderMatcher(folder))
  {
    if folder == "" {
      return routines;
    }
    kept := [];
    var i := 0;
    while i < |routines|
      invariant 0 <= i <= |routines|
      invariant kept == Filter(routines[..i], FolderMatcher(folder))
    {
      assert routines[..i + 1][..i] == routines[..i];
      if routines[i].folderId.Some? && routines[i].folderId.value == folder {
        kept := kept + [routines[i]];
      }
      i := i + 1;
    }
    assert routines[..i] == routines;
  }

  /** The folder filter keeps exactly the routines in that folder; a routine without a folder never survives it. */
  lemma FolderFilterProperties(routines: seq<Routine>, folder: string)
    ensures forall r :: r in Filter(routines, FolderMatcher(folder)) <==> r in routines && r.folderId == Some(folder)
  {
    FilterMembers(routines, FolderMatcher(folder));
  }

  method ListRoutines(listAll: bool, pages: seq<Fetch<Routine>>, single: Fetch<Routine>, folder: string)
    returns (r: Result<seq<Routine>>)
    ensures !listAll ==> (r.Ok? <==> single.Fetched?)
    ensures listAll ==> (r.Ok? <==> forall j :: 0 <= j < |pages| ==> pages[j].Fetched?)
    ensures r.Ok? && folder == "" ==> r.value == (if listAll then Flatten(pages) else single.items)
    ensures r.Ok? && folder != "" ==> r.value == Filter(if listAll then Flatten(pages) else single.items, FolderMatcher(folder))
  {
    var fetched := FetchListing(listAll, pages, single, "routines");
    if fetched.Err? {
      return Err(fetched.msg);
    }
    var kept := FilterByFolder(fetched.value, folder);
    return Ok(kept);
  }

  /** The folder column: "-" without a folder, otherwise the folder ID cut to 15 characters. */
  function FolderColumn(r: Routine): (s: string)
    ensures r.folderId.None? ==> s == "-"
    ensures r.folderId.Some? ==> s == Truncate(r.folderId.value, FolderWidth)
    ensures |s| <= FolderWidth
  {
    match r.folderId
      case None => "-"
      case Some(f) => Truncate(f, FolderWidth)
  }

  function RoutineRow(r: Routine, dateText: int -> string): (row: seq<string>)
    ensures |row| == 5 && row[0] == r.id && row[1] == Truncate(r.title, TitleWidth)
    ensures row[2] == IntToString(|r.exercises|) && row[3] == FolderColumn(r) && row[4] == dateText(r.updatedAt)
  {
    [r.id, Truncate(r.title, TitleWidth), IntToString(|r.exercises|), FolderColumn(r), dateText(r.updatedAt)]
  }

  // ---------------------------------------------------------------- exercise list

  /** The interactive table is used only on a terminal, without JSON output and without any paging flag. */
  function UseInteractive(terminal: bool, outputFmt: string, pageChanged: bool, limitChanged: bool, allChanged: bool): (b: bool)
    ensures b ==> terminal && outputFmt != "json"
    ensures pageChanged || limitChanged || allChanged ==> !b
    ensures terminal && outputFmt != "json" && !pageChanged && !limitChanged && !allChanged ==> b
  {
    terminal && outputFmt != "json" && !pageChanged && !limitChanged && !allChanged
  }

  function CustomColumn(ex: ExerciseTemplate): (s: string)
    ensures s == "Yes" <==> ex.isCustom
    ensures s == "No" <==> !ex.isCustom
  {
    if ex.isCustom then "Yes" else "No"
  }

  function ExerciseRow(ex: ExerciseTemplate): (row: seq<string>)
    ensures |row| == 5 && row[0] == ex.id && row[1] == Truncate(ex.title, TitleWidth)
    ensures row[2] == ex.primaryMuscleGroup && row[3] == ex.equipment && row[4] == CustomColumn(ex)
  {
    [ex.id, Truncate(ex.title, TitleWidth), ex.primaryMuscleGroup, ex.equipment, CustomColumn(ex)]
  }

  // ---------------------------------------------------------------- workout events

  const DateFormatError: string := "invalid date format, use YYYY-MM-DD"

  /** The required --since date, parsed before any request is made. */
  function EventsSince(since: string): (r: Result<int>)
    ensures r.Ok? <==> ParseDate(since).Some?
    ensures r.Ok? ==> r.value == StartSecond(ParseDate(since).value)
    ensures r.Err? ==> r.msg == DateFormatError
  {
    match ParseDate(since)
      case None => Err(DateFormatError)
      case Some(day) => Ok(StartSecond(day))
  }

  function TypeMatcher(eventType: string): WorkoutEvent -> bool
  {
    (e: WorkoutEvent) => e.eventType == eventType
  }

  /** The --type loop: events of that type, in order; no flag, no filter. */
  method FilterByType(events: seq<WorkoutEvent>, eventType: string) returns (kept: seq<WorkoutEvent>)
    ensures eventType == "" ==> kept == events
    ensures eventType != "" ==> kept == Filter(events, TypeMatcher(eventType))
  {
    if eventType == "" {
      return events;
    }
    kept := FilterSeq(events, TypeMatcher(eventType));
  }

  /** Only events of the requested type survive, and all of them do. */
  lemma TypeFilterProperties(events: seq<WorkoutEvent>, eventType: string)
    ensures forall e :: e in Filter(events, TypeMatcher(eventType)) <==> e in events && e.eventType == eventType
  {
    FilterMembers(events, TypeMatcher(eventType));
  }

  /** One plain output line: ID, workout ID, type and RFC 3339 timestamp joined by '|'. */
  function PlainLine(e: WorkoutEvent, stamp: int -> string): string
  {
    e.id + "|" + e.workoutId + "|" + e.eventType + "|" + stamp(e.timestamp) + "\n"
  }

  function PlainEventsText(events: seq<WorkoutEvent>, stamp: int -> string): string
  {
    if events == [] then "" else PlainEventsText(events[..|events| - 1], stamp) + PlainLine(events[|events| - 1], stamp)
  }

  /** The plain-format loop: one line per event, in order. */
  method PlainEvents(events: seq<WorkoutEvent>, stamp: int -> string) returns (out: string)
    ensures out == PlainEventsText(events, stamp)
  {
    out := "";
    var i := 0;
    while i < |events|
      invariant 0 <= i <= |events|
      invariant out == PlainEventsText(events[..i], stamp)
    {
      assert events[..i + 1][..i] == events[..i];
      out := out + PlainLine(events[i], stamp);
      i := i + 1;
    }
    assert events[..i] == events;
  }

  /** A plain line splits back into its four fields when none of them holds '|'. */
  lemma PlainLineFields(e: WorkoutEvent, stamp: int -> string)
    requires '|' !in e.id && '|' !in e.workoutId && '|' !in e.eventType && '|' !in stamp(e.timestamp)
    ensures var line := PlainLine(e, stamp);
      line[|line| - 1] == '\n' && Split(line[..|line| - 1], '|') == [e.id, e.workoutId, e.eventType, stamp(e.timestamp)]
  {
    var fields := [e.id, e.workoutId, e.eventType, stamp(e.timestamp)];
    var line := PlainLine(e, stamp);
    var f3 := fields[1..][1..];
    assert f3 == [e.eventType, stamp(e.timestamp)] && f3[1..] == [stamp(e.timestamp)];
    assert Join(f3, "|") == e.eventType + "|" + stamp(e.timestamp);
    assert Join(fields[1..], "|") == e.workoutId + "|" + Join(f3, "|");
    assert Join(fields, "|") == e.id + "|" + e.workoutId + "|" + e.eventType + "|" + stamp(e.timestamp);
    assert line[..|line| - 1] == Join(fields, "|");
    SplitJoin(fields, '|');
  }

  /** Each event adds exactly its own line to the plain output. */
  lemma {:induction false} PlainEventsAppend(a: seq<WorkoutEvent>, b: seq<WorkoutEvent>, stamp: int -> string)
    ensures PlainEventsText(a + b, stamp) == PlainEventsText(a, stamp) + PlainEventsText(b, stamp)
    decreases |b|
  {
    if b == [] {
      assert a + b == a;
    } else {
      assert (a + b)[..|a + b| - 1] == a + b[..|b| - 1];
      PlainEventsAppend(a, b[..|b| - 1], stamp);
    }
  }
}
