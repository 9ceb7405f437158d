/** The older standalone script: for every day of a range, launch one work-log command per
    task of the day's fixed plan. It makes no lookup first, and a failing command is
    caught and logged without stopping anything. The launched command is represented by
    the body it sends; whether it fails is a parameter indexed by launch position. */
module LegacyScript {
  import opened Wrappers
  import opened Calendar
  import opened WorkLog

  const ACTIVITY_PROJECT_MANAGEMENT := "fefc33f4-bf69-42b1-9029-d0ac0dbe5714"
  const ACTIVITY_DEVELOPMENT := "c30c3a6d-aacd-46b2-833d-acd3d33d830d"
  const ACTIVITY_DAY_OFF := "61e63283-5eec-4853-9a1a-a15550da0d46"

  const WORKING_DAY_TASKS: seq<Template> := [
    Task(1, ACTIVITY_PROJECT_MANAGEMENT, "Daily DevOps & Réunions diverses"),
    Task(3, ACTIVITY_DEVELOPMENT, "Dev + PRs"),
    Task(3, ACTIVITY_DEVELOPMENT, "DevOps")]

  const PUBLIC_DAY_TASKS: seq<Template> := [Task(7, ACTIVITY_DAY_OFF, "Jour férié")]

  /** The plan `createTasks` picks for a day: none on a Saturday or a Sunday, the day-off
      entry on a public holiday, the fixed three-entry plan otherwise. */
  function DayPlan(cal: Calendar, d: Day): (r: Option<seq<Template>>)
    ensures r.None? <==> IsWeekend(d)
    ensures r.Some? && IsPublicDay(cal, d) ==> r.value == PUBLIC_DAY_TASKS
    ensures r.Some? && !IsPublicDay(cal, d) ==> r.value == WORKING_DAY_TASKS
  {
    if IsSaturday(d) then None
    else if IsSunday(d) then None
    else Some(if IsPublicDay(cal, d) then PUBLIC_DAY_TASKS else WORKING_DAY_TASKS)
  }

  /** The bodies of the commands `createTasks(d)` launches, in task order. */
  function DayBodies(cal: Calendar, d: Day, userId: string): seq<PostBody>
  {
    match DayPlan(cal, d)
    case None => []
    case Some(tasks) => PostBodies(tasks, Timestamp(cal, d), userId)
  }

  /** Every weekday is booked for exactly 7 hours, 25200 seconds, holiday or not; a Saturday
      or a Sunday for nothing. */
  lemma DayIsSevenHours(cal: Calendar, d: Day, userId: string)
    ensures TotalLength(DayBodies(cal, d, userId)) == if IsWeekend(d) then 0 else 25200
  {
    match DayPlan(cal, d)
    case None =>
    case Some(tasks) =>
      TotalLengthOfBodies(tasks, Timestamp(cal, d), userId);
      assert TotalHours(WORKING_DAY_TASKS[2..]) == 3 && TotalHours(WORKING_DAY_TASKS[1..]) == 6;
      assert TotalHours(WORKING_DAY_TASKS) == 7 && TotalHours(PUBLIC_DAY_TASKS) == 7;
  }

  /** A working day launches the three fixed entries in order; a holiday the single
      day-off entry. */
  lemma WeekdayBodies(cal: Calendar, d: Day, userId: string)
    requires !IsWeekend(d)
    ensures var stamp := Timestamp(cal, d);
      DayBodies(cal, d, userId) == if IsPublicDay(cal, d) then
        [PostBody(Some(ACTIVITY_DAY_OFF), 25200, "Jour férié", stamp, userId)]
      else
        [PostBody(Some(ACTIVITY_PROJECT_MANAGEMENT), 3600, "Daily DevOps & Réunions diverses", stamp, userId),
         PostBody(Some(ACTIVITY_DEVELOPMENT), 10800, "Dev + PRs", stamp, userId),
         PostBody(Some(ACTIVITY_DEVELOPMENT), 10800, "DevOps", stamp, userId)]
  {
  }

  /** The bodies launched by the date loop from `first` to `last`, day after day. */
  function Launches(cal: Calendar, first: Day, last: Day, userId: string): seq<PostBody>
    decreases last - first + 1
  {
    if first > last then [] else DayBodies(cal, first, userId) + Launches(cal, first + 1, last, userId)
  }

  /** The loop splits at any day: what it launches up to `mid`, then the rest. */
  lemma {:induction false} LaunchesSplit(cal: Calendar, first: Day, mid: Day, last: Day, userId: string)
    requires first <= mid + 1 && mid <= last
    ensures Launches(cal, first, last, userId) ==
      Launches(cal, first, mid, userId) + Launches(cal, mid + 1, last, userId)
    decreases mid - first + 1
  {
    var tail := Launches(cal, mid + 1, last, userId);
    if first <= mid {
      var day, middle := DayBodies(cal, first, userId), Launches(cal, first + 1, mid, userId);
      LaunchesSplit(cal, first + 1, mid, last, userId);
      assert Launches(cal, first, last, userId) == day + (middle + tail);
      assert day + (middle + tail) == (day + middle) + tail;
    } else {
      assert Launches(cal, first, mid, userId) + tail == tail;
    }
  }

  /** No existing-log check: every day in range gets its whole plan, between the days before
      it and the days after it. */
  lemma EveryDayGetsItsPlan(cal: Calendar, first: Day, d: Day, last: Day, userId: string)
    requires first <= d <= last
    ensures Launches(cal, first, last, userId) ==
      Launches(cal, first, d - 1, userId) + DayBodies(cal, d, userId) + Launches(cal, d + 1, last, userId)
  {
    LaunchesSplit(cal, first, d - 1, last, userId);
    assert Launches(cal, d, last, userId) == DayBodies(cal, d, userId) + Launches(cal, d + 1, last, userId);
  }

  /** The number of weekdays from `first` to `last`. */
  function Weekdays(first: Day, last: Day): nat
    decreases last - first + 1
  {
    if first > last then 0 else (if IsWeekend(first) then 0 else 1) + Weekdays(first + 1, last)
  }

  /** A range is booked for 7 hours per weekday. */
  lemma {:induction false} RangeIsSevenHoursPerWeekday(cal: Calendar, first: Day, last: Day, userId: string)
    ensures TotalLength(Launches(cal, first, last, userId)) == 25200 * Weekdays(first, last)
    decreases last - first + 1
  {
    if first <= last {
      DayIsSevenHours(cal, first, userId);
      TotalLengthAppend(DayBodies(cal, first, userId), Launches(cal, first + 1, last, userId));
      RangeIsSevenHoursPerWeekday(cal, first + 1, last, userId);
    }
  }

  /** `createTasks(d)`: the `forEach` over the day's plan. Each command is launched with
      the task's body; a failing one is logged (its position is recorded) and the next is
      launched all the same. */
  method CreateTasks(cal: Calendar, d: Day, userId: string, commandFails: nat -> bool, at: nat)
    returns (launched: seq<PostBody>, logged: seq<nat>)
    ensures launched == DayBodies(cal, d, userId)
    ensures forall n :: n in logged <==> at <= n < at + |launched| && commandFails(n)
  {
    launched, logged := [], [];
    if IsSaturday(d) {
      return;
    }
    if IsSunday(d) {
      return;
    }
    var tasks := if IsPublicDay(cal, d) then PUBLIC_DAY_TASKS else WORKING_DAY_TASKS;
    var timestamp := Timestamp(cal, d);
    ghost var bodies := PostBodies(tasks, timestamp, userId);
    for i := 0 to |tasks|
      invariant launched == bodies[..i]
      invariant forall n :: n in logged <==> at <= n < at + i && commandFails(n)
    {
      var postData := ToPostBody(tasks[i], timestamp, userId);
      launched := launched + [postData];
      if commandFails(at + i) {
        logged := logged + [at + i];
      }
    }
    assert bodies[..|tasks|] == bodies;
  }

  lemma LaunchesStep(launched: seq<PostBody>, cal: Calendar, d: Day, last: Day, userId: string)
    requires d <= last
    ensures launched + Launches(cal, d, last, userId) ==
      (launched + DayBodies(cal, d, userId)) + Launches(cal, d + 1, last, userId)
  {
    var day, rest := DayBodies(cal, d, userId), Launches(cal, d + 1, last, userId);
    assert Launches(cal, d, last, userId) == day + rest;
    assert launched + (day + rest) == (launched + day) + rest;
  }

  lemma LoggedAppend(logged: seq<nat>, failed: seq<nat>, before: nat, added: nat, commandFails: nat -> bool)
    requires forall n :: n in logged <==> 0 <= n < before && commandFails(n)
    requires forall n :: n in failed <==> before <= n < before + added && commandFails(n)
    ensures forall n :: n in logged + failed <==> 0 <= n < before + added && commandFails(n)
  {
  }

  /** The top-level date loop from `startDate` to `endDate` inclusive. */
  method Run(cal: Calendar, startDate: Day, endDate: Day, userId: string, commandFails: nat -> bool)
    returns (launched: seq<PostBody>, logged: seq<nat>)
    ensures launched == Launches(cal, startDate, endDate, userId)
    ensures forall n :: n in logged <==> 0 <= n < |launched| && commandFails(n)
  {
    launched, logged := [], [];
    var date := startDate;
    while date <= endDate
      invariant launched + Launches(cal, date, endDate, userId) == Launches(cal, startDate, endDate, userId)
      invariant forall n :: n in logged <==> 0 <= n < |launched| && commandFails(n)
      decreases endDate - date + 1
    {
      var day, failed := CreateTasks(cal, date, userId, commandFails, |launched|);
      LaunchesStep(launched, cal, date, endDate, userId);
      LoggedAppend(logged, failed, |launched|, |day|, commandFails);
      launched, logged := launched + day, logged + failed;
      date := date + 1;
    }
    assert launched + [] == launched;
  }
}
