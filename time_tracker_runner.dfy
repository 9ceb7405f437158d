/** The TimeTrackerRunner class: for every day of a range, look up the day's work logs and,
    when there are none, post the day's tasks.

    The module-level `DYNAMIC_WORKING_DAY_TASKS` array is a field of `Runner` and is never
    reset, so the hours drawn on one working day are still there on the next. Math.random()
    is a supply of values the runner consumes, and the service (reached through Axios) is a
    `Service` value that says how each call ends. Every call made on the service is
    appended to `calls`. */
module TimeTrackerRunner {
  import opened Wrappers
  import opened Calendar
  import opened WorkLog
  import opened TimeTrackerApi

  const ACTIVITY_PROJECT_MANAGEMENT := "d968a6e5-6d9f-4fa2-b248-5201bd9a3015"
  const ACTIVITY_DEVELOPMENT := "c30c3a6d-aacd-46b2-833d-acd3d33d830d"
  const ACTIVITY_SAAS_OPERATION := "6e00c587-525c-4c1d-880e-0e20fd815dd5"
  const ACTIVITY_DAY_OFF := "61e63283-5eec-4853-9a1a-a15550da0d46"

  const STATIC_WORKING_DAY_TASKS: seq<Template> := [
    Task(1, ACTIVITY_PROJECT_MANAGEMENT, "Daily DevOps & Réunions diverses"),
    Task(3, ACTIVITY_DEVELOPMENT, "DevOps")]

  const REMAINING_HOURS: nat := 3

  /** The initial contents of `DYNAMIC_WORKING_DAY_TASKS`. */
  const DYNAMIC_WORKING_DAY_TASKS: seq<Template> := [
    DynamicTask(0, ACTIVITY_DEVELOPMENT, "Dev + PRs"),
    DynamicTask(0, ACTIVITY_SAAS_OPERATION, "Support Production"),
    DynamicTask(0, ACTIVITY_SAAS_OPERATION, "Support Dev")]

  const PUBLIC_DAY_TASKS: seq<Template> := [Task(7, ACTIVITY_DAY_OFF, "Jour férié")]

  // ---------------------------------------------------------------------------------
  // between

  /** Math.random() returns `u / 2^53` for an integer `0 <= u < 2^53`. */
  const RANDOM_SCALE: nat := 0x20_0000_0000_0000

  type Random = u: nat | u < RANDOM_SCALE

  lemma ScaledBelow(u: Random, n: nat)
    requires n >= 1
    ensures 0 <= u * n / RANDOM_SCALE < n
  {
    assert u * n < RANDOM_SCALE * n;
  }

  /** `between(min, max)` when Math.random() returned `u / 2^53`:
      `Math.floor(u / 2^53 * (max - min + 1) + min)`, always within `[min, max]`. */
  function Between(min: int, max: int, u: Random): (r: int)
    requires min <= max
    ensures min <= r <= max
  {
    ScaledBelow(u, max - min + 1);
    min + u * (max - min + 1) / RANDOM_SCALE
  }

  /** The two Math.random() values one iteration of the hour split consumes: the first
      for the hours, the second for the template. */
  datatype Draw = Draw(forHours: Random, forTemplate: Random)

  // ---------------------------------------------------------------------------------
  // The hour split

  datatype Allocation =
    | Allocated(templates: seq<Template>, rest: seq<Draw>)
    | OutOfDraws(templates: seq<Template>)

  /** The hour-split loop from the point where `hours` of `REMAINING_HOURS` are placed:
      each draw adds `between(0, neededHours)` hours to the template `between(0, 2)`,
      until all are placed. A run of zero-hour draws places nothing, so the loop has no
      bound of its own; when the supply of draws ends first the result is `OutOfDraws`. */
  function Allocate(templates: seq<Template>, hours: nat, draws: seq<Draw>): (a: Allocation)
    requires hours <= REMAINING_HOURS && |templates| > 0
    ensures |a.templates| == |templates|
    decreases |draws|
  {
    if hours >= REMAINING_HOURS then Allocated(templates, draws)
    else if draws == [] then OutOfDraws(templates)
    else
      var neededHours := REMAINING_HOURS - hours;
      var randHours := Between(0, neededHours, draws[0].forHours);
      var randType := Between(0, |templates| - 1, draws[0].forTemplate);
      var t := templates[randType];
      Allocate(templates[randType := t.(lengthInHour := t.lengthInHour + randHours)],
               hours + randHours, draws[1..])
  }

  /** Two template lists that differ at most in their hours. */
  predicate SameTasks(a: seq<Template>, b: seq<Template>)
  {
    |a| == |b| && forall i :: 0 <= i < |a| ==> a[i].(lengthInHour := 0) == b[i].(lengthInHour := 0)
  }

  /** The split adds exactly the hours still needed when it finishes (fewer when the draws
      run out first), and consumes a prefix of the draws. */
  lemma {:induction false} AllocateAddsNeededHours(templates: seq<Template>, hours: nat, draws: seq<Draw>)
    requires hours <= REMAINING_HOURS && |templates| > 0
    ensures var a := Allocate(templates, hours, draws);
      (a.Allocated? ==> TotalHours(a.templates) == TotalHours(templates) + (REMAINING_HOURS - hours)) &&
      (a.OutOfDraws? ==> TotalHours(a.templates) < TotalHours(templates) + (REMAINING_HOURS - hours)) &&
      (a.Allocated? ==> |a.rest| <= |draws| && a.rest == draws[|draws| - |a.rest|..])
    decreases |draws|
  {
    if hours < REMAINING_HOURS && draws != [] {
      var randHours := Between(0, REMAINING_HOURS - hours, draws[0].forHours);
      var randType := Between(0, |templates| - 1, draws[0].forTemplate);
      var t := templates[randType].(lengthInHour := templates[randType].lengthInHour + randHours);
      TotalHoursUpdate(templates, randType, t);
      AllocateAddsNeededHours(templates[randType := t], hours + randHours, draws[1..]);
    }
  }

  /** The split changes nothing but hours, and never lowers a template's hours. */
  lemma {:induction false} AllocateOnlyAddsHours(templates: seq<Template>, hours: nat, draws: seq<Draw>)
    requires hours <= REMAINING_HOURS && |templates| > 0
    ensures var a := Allocate(templates, hours, draws);
      SameTasks(a.templates, templates) &&
      forall i :: 0 <= i < |templates| ==> a.templates[i].lengthInHour >= templates[i].lengthInHour
    decreases |draws|
  {
    if hours < REMAINING_HOURS && draws != [] {
      var randHours := Between(0, REMAINING_HOURS - hours, draws[0].forHours);
      var randType := Between(0, |templates| - 1, draws[0].forTemplate);
      var t := templates[randType].(lengthInHour := templates[randType].lengthInHour + randHours);
      AllocateOnlyAddsHours(templates[randType := t], hours + randHours, draws[1..]);
    }
  }

  /** A draw of zero hours changes nothing, so a supply of such draws never finishes. */
  lemma {:induction false} ZeroDrawsNeverFinish(templates: seq<Template>, hours: nat, draws: seq<Draw>)
    requires hours < REMAINING_HOURS && |templates| > 0
    requires forall i :: 0 <= i < |draws| ==> draws[i].forHours == 0
    ensures Allocate(templates, hours, draws) == OutOfDraws(templates)
    decreases |draws|
  {
    if draws != [] {
      var randType := Between(0, |templates| - 1, draws[0].forTemplate);
      assert templates[randType := templates[randType].(lengthInHour := templates[randType].lengthInHour + 0)] == templates;
      ZeroDrawsNeverFinish(templates, hours, draws[1..]);
    }
  }

  /** `templates.filter((t) => t.lengthInHour > 0)` */
  function Positive(ts: seq<Template>): (r: seq<Template>)
    ensures forall t :: t in r ==> t in ts && t.lengthInHour > 0
    ensures forall t :: t in ts && t.lengthInHour > 0 ==> t in r
    ensures TotalHours(r) == TotalHours(ts)
  {
    if ts == [] then []
    else if ts[0].lengthInHour > 0 then [ts[0]] + Positive(ts[1..])
    else Positive(ts[1..])
  }

  /** Filtering keeps order: it works piece by piece. */
  lemma {:induction false} PositiveAppend(a: seq<Template>, b: seq<Template>)
    ensures Positive(a + b) == Positive(a) + Positive(b)
  {
    if a == [] {
      assert a + b == b;
    } else {
      assert (a + b)[1..] == a[1..] + b;
      PositiveAppend(a[1..], b);
    }
  }

  // ---------------------------------------------------------------------------------
  // The day's task list

  datatype Plan =
    | Skip
    | Tasks(tasks: seq<Template>, templates: seq<Template>, rest: seq<Draw>)
    | Stalled(templates: seq<Template>)

  /** The task list `createTasks` builds for a day, with the dynamic templates and the
      remaining draws afterwards: nothing on a Saturday or a Sunday, the single day-off
      task on a public holiday, and otherwise the static tasks followed by the dynamic
      templates that have hours, after the hour split. */
  function PlanDay(cal: Calendar, d: Day, templates: seq<Template>, draws: seq<Draw>): (p: Plan)
    requires |templates| > 0
    ensures p.Skip? <==> IsWeekend(d)
    ensures !IsWeekend(d) && IsPublicDay(cal, d) ==> p == Tasks(PUBLIC_DAY_TASKS, templates, draws)
    ensures !IsWeekend(d) && !IsPublicDay(cal, d) ==> p.templates == Allocate(templates, 0, draws).templates
    ensures !p.Skip? ==> |p.templates| == |templates|
  {
    if IsSaturday(d) then Skip
    else if IsSunday(d) then Skip
    else if IsPublicDay(cal, d) then Tasks(PUBLIC_DAY_TASKS, templates, draws)
    else match Allocate(templates, 0, draws)
      case Allocated(ts, rest) => Tasks(STATIC_WORKING_DAY_TASKS + Positive(ts), ts, rest)
      case OutOfDraws(ts) => Stalled(ts)
  }

  /** A public holiday posts one 7-hour (25200 s) day-off entry, "Jour férié", and leaves
      the dynamic templates and the draws alone. */
  lemma HolidayPostsOneDayOff(cal: Calendar, d: Day, templates: seq<Template>, draws: seq<Draw>, userId: string)
    requires |templates| > 0 && !IsWeekend(d) && IsPublicDay(cal, d)
    ensures var p := PlanDay(cal, d, templates, draws);
      p.Tasks? && p.templates == templates && p.rest == draws &&
      PostBodies(p.tasks, Timestamp(cal, d), userId) ==
        [PostBody(Some(ACTIVITY_DAY_OFF), 25200, "Jour férié", Timestamp(cal, d), userId)]
  {
    var bodies := PostBodies(PUBLIC_DAY_TASKS, Timestamp(cal, d), userId);
    assert |bodies| == 1 && bodies[0].length == 7 * 3600;
  }

  /** On a working day the list is the two static tasks, in order, then the dynamic
      templates that have hours, in template order. The split adds 3 hours to the dynamic
      templates, so the list totals 7 hours plus whatever the templates held before: 7 on
      the first working day of a run, 10 on the second, and so on. */
  lemma WorkingDayPlan(cal: Calendar, d: Day, templates: seq<Template>, draws: seq<Draw>)
    requires |templates| > 0 && !IsWeekend(d) && !IsPublicDay(cal, d)
    requires Allocate(templates, 0, draws).Allocated?
    ensures var p := PlanDay(cal, d, templates, draws);
      p.Tasks? &&
      p.tasks[..|STATIC_WORKING_DAY_TASKS|] == STATIC_WORKING_DAY_TASKS &&
      p.tasks[|STATIC_WORKING_DAY_TASKS|..] == Positive(p.templates) &&
      SameTasks(p.templates, templates) &&
      TotalHours(p.templates) == TotalHours(templates) + REMAINING_HOURS &&
      TotalHours(p.tasks) == 7 + TotalHours(templates)
  {
    var p := PlanDay(cal, d, templates, draws);
    AllocateAddsNeededHours(templates, 0, draws);
    AllocateOnlyAddsHours(templates, 0, draws);
    TotalHoursAppend(STATIC_WORKING_DAY_TASKS, Positive(p.templates));
    assert TotalHours(STATIC_WORKING_DAY_TASKS) == 4;
  }

  // ---------------------------------------------------------------------------------
  // Posting the tasks

  /** The name under which the runner calls the creation: `TimeTrackerAPI[name](postData)`. */
  const CREATE_CALL_AS_WRITTEN := "createWorkLogs"
  const CREATE_CALL := "createWorkLog"

  /** Whether `TimeTrackerAPI[name]` is one of the class's methods. */
  predicate Resolves(name: string)
  {
    name in STATIC_METHODS
  }

  datatype Issued = Issued(calls: seq<ApiCall>, rejected: bool)

  /** The awaited `reduce` over the bodies: each creation is made only after the previous
      one resolved; a rejection stops the rest and rejects the whole. When the name called
      does not resolve (`resolved` is false) the first creation throws a TypeError before
      any request is made. `rejects(n)` says whether the call made at position `n` of the
      call log rejects. */
  function Issue(resolved: bool, bodies: seq<PostBody>, rejects: nat -> bool, at: nat): (r: Issued)
    ensures |r.calls| <= |bodies|
    ensures !r.rejected ==> |r.calls| == |bodies|
    ensures r.rejected && r.calls != [] ==> rejects(at + |r.calls| - 1)
    ensures !resolved && bodies != [] ==> r == Issued([], true)
    decreases |bodies|
  {
    if bodies == [] then Issued([], false)
    else if !resolved then Issued([], true)
    else if rejects(at) then Issued([CreateWorkLog(bodies[0])], true)
    else
      var rest := Issue(resolved, bodies[1..], rejects, at + 1);
      Issued([CreateWorkLog(bodies[0])] + rest.calls, rest.rejected)
  }

  function Creations(bodies: seq<PostBody>): (r: seq<ApiCall>)
  {
    seq(|bodies|, i requires 0 <= i < |bodies| => CreateWorkLog(bodies[i]))
  }

  /** The creations made are the first bodies, in order, each made after the previous one
      resolved: every call but a rejected last one resolved. */
  lemma {:induction false} IssuePostsInOrder(resolved: bool, bodies: seq<PostBody>, rejects: nat -> bool, at: nat)
    ensures var r := Issue(resolved, bodies, rejects, at);
      (forall i :: 0 <= i < |r.calls| ==> r.calls[i] == CreateWorkLog(bodies[i])) &&
      (forall n :: at <= n < at + |r.calls| && !(r.rejected && n == at + |r.calls| - 1) ==> !rejects(n))
    decreases |bodies|
  {
    if bodies != [] && resolved && !rejects(at) {
      IssuePostsInOrder(resolved, bodies[1..], rejects, at + 1);
    }
  }

  /** As written, the runner calls `createWorkLogs`, which the API class does not define:
      the first creation throws and nothing is posted. */
  lemma CreateWorkLogsIsNotAFunction(bodies: seq<PostBody>, rejects: nat -> bool, at: nat)
    requires bodies != []
    ensures !Resolves(CREATE_CALL_AS_WRITTEN)
    ensures Issue(Resolves(CREATE_CALL_AS_WRITTEN), bodies, rejects, at) == Issued([], true)
  {
    assert CREATE_CALL_AS_WRITTEN != STATIC_METHODS[5];
  }

  /** `createWorkLog` is a method of the API class; calling it, every body is posted, in
      order, when no call rejects. */
  lemma {:induction false} CreationsPostedInOrder(bodies: seq<PostBody>, rejects: nat -> bool, at: nat)
    requires forall n :: at <= n < at + |bodies| ==> !rejects(n)
    ensures Resolves(CREATE_CALL)
    ensures Issue(Resolves(CREATE_CALL), bodies, rejects, at) == Issued(Creations(bodies), false)
    decreases |bodies|
  {
    assert STATIC_METHODS[5] == CREATE_CALL;
    if bodies != [] {
      CreationsPostedInOrder(bodies[1..], rejects, at + 1);
      assert Creations(bodies) == [CreateWorkLog(bodies[0])] + Creations(bodies[1..]);
    }
  }

  /** Creation `i` resolved: it is made and the rest go on from the next position. */
  lemma IssueAdvances(bodies: seq<PostBody>, rejects: nat -> bool, at: nat, i: nat)
    requires i < |bodies| && !rejects(at + i)
    ensures var r := Issue(true, bodies[i..], rejects, at + i);
      var tail := Issue(true, bodies[i + 1..], rejects, at + i + 1);
      r.calls == [CreateWorkLog(bodies[i])] + tail.calls && r.rejected == tail.rejected
  {
    assert bodies[i..][1..] == bodies[i + 1..];
  }

  /** A creation the loop of `Runner.IssueCreations` makes at step `i`: the calls made so
      far plus the pending ones still add up to the calls of the whole reduce. */
  lemma IssueStep(start: seq<ApiCall>, calls: seq<ApiCall>, whole: Issued, bodies: seq<PostBody>,
                  rejects: nat -> bool, at: nat, i: nat)
    requires i < |bodies|
    requires start + whole.calls == calls + Issue(true, bodies[i..], rejects, at + i).calls
    requires whole.rejected == Issue(true, bodies[i..], rejects, at + i).rejected
    ensures var made := calls + [CreateWorkLog(bodies[i])];
      var tail := Issue(true, bodies[i + 1..], rejects, at + i + 1);
      (rejects(at + i) ==> start + whole.calls == made && whole.rejected) &&
      (!rejects(at + i) ==> start + whole.calls == made + tail.calls && whole.rejected == tail.rejected)
  {
    if rejects(at + i) {
      assert Issue(true, bodies[i..], rejects, at + i) == Issued([CreateWorkLog(bodies[i])], true);
    } else {
      IssueAdvances(bodies, rejects, at, i);
      AppendAssociative(calls, [CreateWorkLog(bodies[i])], Issue(true, bodies[i + 1..], rejects, at + i + 1).calls);
    }
  }

  /** The loop's first step when the creation call does not resolve: nothing is made and
      the reduce rejects. */
  lemma IssueStepUnresolved(start: seq<ApiCall>, calls: seq<ApiCall>, whole: Issued, bodies: seq<PostBody>,
                            rejects: nat -> bool, at: nat, i: nat)
    requires i < |bodies| && i == 0
    requires start + whole.calls == calls + Issue(false, bodies[i..], rejects, at + i).calls
    requires whole.rejected == Issue(false, bodies[i..], rejects, at + i).rejected
    ensures calls == start + whole.calls && whole.rejected
  {
    assert bodies[i..] == bodies;
    assert calls + [] == calls;
  }

  lemma AppendAssociative<T>(a: seq<T>, b: seq<T>, c: seq<T>)
    ensures a + (b + c) == (a + b) + c
  {
  }

  // ---------------------------------------------------------------------------------
  // The service and the run, as functions of the state

  /** What `getWorkLogs(date)` resolves to: `null` or a body without a list, or the list. */
  datatype Lookup = NoList | Listed(ids: seq<string>)

  /** How the service answers. `me` is `getMe()`: a rejection, or the resolved body's
      `data.user.id` (`None` when the body is `null`). */
  datatype Service = Service(
    me: Outcome<Option<string>>,
    workLogs: Day -> Outcome<Lookup>,
    createRejects: nat -> bool)

  datatype State = State(templates: seq<Template>, draws: seq<Draw>, calls: seq<ApiCall>)

  /** How `createTasks` ends: resolved, rejected, or still looping in the hour split when
      the draws ran out. */
  datatype Step = Continued | Threw | Looping

  datatype DayResult = DayResult(state: State, step: Step)

  /** `createTasks(date, userId)`. `createResolves` says whether the name the runner calls
      the creation by is a method of the API class: `Resolves(CREATE_CALL_AS_WRITTEN)` for
      the code as written, which is false, and `Resolves(CREATE_CALL)` once corrected. */
  function CreateTasksSpec(cal: Calendar, service: Service, createResolves: bool, d: Day, userId: string, st: State): (r: DayResult)
    requires |st.templates| > 0
    ensures |r.state.templates| == |st.templates|
  {
    match PlanDay(cal, d, st.templates, st.draws)
    case Skip => DayResult(st, Continued)
    case Stalled(ts) => DayResult(State(ts, [], st.calls), Looping)
    case Tasks(tasks, ts, rest) =>
      var issued := Issue(createResolves, PostBodies(tasks, Timestamp(cal, d), userId), service.createRejects, |st.calls|);
      DayResult(State(ts, rest, st.calls + issued.calls), if issued.rejected then Threw else Continued)
  }

  datatype RunOutcome = Finished | ThrewBeforeLoop | ThrewOn(day: Day) | LoopingOn(day: Day)

  datatype RunResult = RunResult(state: State, outcome: RunOutcome)

  /** How one day of the date loop ends: on to the next day, or the run stops. */
  datatype DayEnd = Next(state: State) | Stop(state: State, outcome: RunOutcome)

  /** One day of the date loop of `run`: look up the day's work logs and post the day's
      tasks only when the lookup resolved to an empty list. A rejected lookup or creation,
      or a `null` user, stops the run on that day. */
  function VisitDay(cal: Calendar, service: Service, createResolves: bool, me: Option<string>, d: Day, st: State): (r: DayEnd)
    requires |st.templates| > 0
    ensures |r.state.templates| == |st.templates|
    ensures r.Stop? ==> r.outcome == ThrewOn(d) || r.outcome == LoopingOn(d)
  {
    var st1 := st.(calls := st.calls + [GetWorkLogs(d)]);
    match service.workLogs(d)
    case Rejected => Stop(st1, ThrewOn(d))
    case Returned(lookup) =>
      if lookup != Listed([]) then Next(st1)
      else if me.None? then Stop(st1, ThrewOn(d))
      else
        var r := CreateTasksSpec(cal, service, createResolves, d, me.value, st1);
        match r.step
        case Continued => Next(r.state)
        case Threw => Stop(r.state, ThrewOn(d))
        case Looping => Stop(r.state, LoopingOn(d))
  }

  /** The date loop of `run` from `d` to `end`. */
  function RunDays(cal: Calendar, service: Service, createResolves: bool, me: Option<string>, d: Day, end: Day, st: State): (r: RunResult)
    requires |st.templates| > 0
    ensures |r.state.templates| == |st.templates|
    decreases end - d + 1
  {
    if d > end then RunResult(st, Finished)
    else match VisitDay(cal, service, createResolves, me, d, st)
      case Next(st1) => RunDays(cal, service, createResolves, me, d + 1, end, st1)
      case Stop(st1, outcome) => RunResult(st1, outcome)
  }

  /** `run()`: fetch the user once, then the date loop from `startDate` to `endDate`. */
  function RunSpec(cal: Calendar, service: Service, createResolves: bool, startDate: Day, endDate: Day, st: State): (r: RunResult)
    requires |st.templates| > 0
    ensures |r.state.templates| == |st.templates|
  {
    var st1 := st.(calls := st.calls + [GetMe]);
    match service.me
    case Rejected => RunResult(st1, ThrewBeforeLoop)
    case Returned(me) => RunDays(cal, service, createResolves, me, startDate, endDate, st1)
  }

  // ---------------------------------------------------------------------------------
  // Properties of the run

  /** The dates of the work-log lookups in a call log, in order. */
  function Lookups(calls: seq<ApiCall>): seq<Day>
  {
    if calls == [] then []
    else (if calls[0].GetWorkLogs? then [calls[0].date] else []) + Lookups(calls[1..])
  }

  lemma {:induction false} LookupsAppend(a: seq<ApiCall>, b: seq<ApiCall>)
    ensures Lookups(a + b) == Lookups(a) + Lookups(b)
  {
    if a == [] {
      assert a + b == b;
    } else {
      assert (a + b)[1..] == a[1..] + b;
      LookupsAppend(a[1..], b);
    }
  }

  lemma {:induction false} NoLookups(calls: seq<ApiCall>)
    requires forall k :: 0 <= k < |calls| ==> calls[k].CreateWorkLog?
    ensures Lookups(calls) == []
  {
    if calls != [] {
      NoLookups(calls[1..]);
    }
  }

  /** `b` is `a` with more calls after it. */
  predicate Extends(a: seq<ApiCall>, b: seq<ApiCall>)
  {
    |a| <= |b| && b[..|a|] == a
  }

  /** `createTasks` only adds creations, each stamped with the day and the user, and none on
      a Saturday or a Sunday. */
  lemma DayOnlyCreates(cal: Calendar, service: Service, createResolves: bool, d: Day, userId: string, st: State)
    requires |st.templates| > 0
    ensures var r := CreateTasksSpec(cal, service, createResolves, d, userId, st);
      Extends(st.calls, r.state.calls) &&
      (IsWeekend(d) ==> r.state == st) &&
      forall k :: |st.calls| <= k < |r.state.calls| ==>
        r.state.calls[k].CreateWorkLog? &&
        r.state.calls[k].body.timestamp == Timestamp(cal, d) && r.state.calls[k].body.userId == userId
  {
    var p := PlanDay(cal, d, st.templates, st.draws);
    if p.Tasks? {
      var bodies := PostBodies(p.tasks, Timestamp(cal, d), userId);
      IssuePostsInOrder(createResolves, bodies, service.createRejects, |st.calls|);
    }
  }

  /** One day of the loop makes the day's lookup first, then only creations stamped with
      that day and the fetched user, and those only on a weekday whose lookup was empty. */
  lemma VisitDayCalls(cal: Calendar, service: Service, createResolves: bool, me: Option<string>, d: Day, st: State)
    requires |st.templates| > 0
    ensures var r := VisitDay(cal, service, createResolves, me, d, st);
      Extends(st.calls + [GetWorkLogs(d)], r.state.calls) &&
      (|r.state.calls| > |st.calls| + 1 ==> service.workLogs(d) == Returned(Listed([])) && !IsWeekend(d)) &&
      forall k :: |st.calls| + 1 <= k < |r.state.calls| ==>
        r.state.calls[k].CreateWorkLog? && r.state.calls[k].body.timestamp == Timestamp(cal, d) &&
        me == Some(r.state.calls[k].body.userId)
  {
    var st1 := st.(calls := st.calls + [GetWorkLogs(d)]);
    if service.workLogs(d) == Returned(Listed([])) && me.Some? {
      DayOnlyCreates(cal, service, createResolves, d, me.value, st1);
    }
  }

  /** One day of the loop looks up that day and no other. */
  lemma VisitDayLooksUpOnce(cal: Calendar, service: Service, createResolves: bool, me: Option<string>, d: Day, st: State)
    requires |st.templates| > 0
    ensures var r := VisitDay(cal, service, createResolves, me, d, st);
      Extends(st.calls, r.state.calls) && Lookups(r.state.calls) == Lookups(st.calls) + [d]
  {
    var r := VisitDay(cal, service, createResolves, me, d, st);
    var st1 := st.(calls := st.calls + [GetWorkLogs(d)]);
    VisitDayCalls(cal, service, createResolves, me, d, st);
    var added := r.state.calls[|st1.calls|..];
    assert r.state.calls == st1.calls + added;
    NoLookups(added);
    LookupsAppend(st1.calls, added);
    LookupsAppend(st.calls, [GetWorkLogs(d)]);
    assert Lookups([GetWorkLogs(d)]) == [d];
  }

  /** The day a run stopped on, or its last day when it went through. */
  function LastDay(outcome: RunOutcome, end: Day): Day
  {
    match outcome
    case ThrewOn(day) => day
    case LoopingOn(day) => day
    case _ => end
  }

  /** The run looks up every day from `d` in turn, weekends included, up to `end` or up to
      the day it stopped on, and nothing else. */
  lemma {:induction false} RunVisitsEachDay(cal: Calendar, service: Service, createResolves: bool, me: Option<string>, d: Day, end: Day, st: State)
    requires |st.templates| > 0
    ensures var r := RunDays(cal, service, createResolves, me, d, end, st);
      Extends(st.calls, r.state.calls) &&
      !r.outcome.ThrewBeforeLoop? &&
      (!r.outcome.Finished? ==> d <= LastDay(r.outcome, end) <= end) &&
      Lookups(r.state.calls) == Lookups(st.calls) + DaysFrom(d, LastDay(r.outcome, end))
    decreases end - d + 1
  {
    if d <= end {
      VisitDayLooksUpOnce(cal, service, createResolves, me, d, st);
      match VisitDay(cal, service, createResolves, me, d, st)
      case Stop(st1, outcome) =>
        assert DaysFrom(d, d) == [d];
      case Next(st1) =>
        var r := RunDays(cal, service, createResolves, me, d + 1, end, st1);
        RunVisitsEachDay(cal, service, createResolves, me, d + 1, end, st1);
        var last := LastDay(r.outcome, end);
        DaysFromFirst(d, last);
        AppendAssociative(Lookups(st.calls), [d], DaysFrom(d + 1, last));
        ExtendsTransitive(st.calls, st1.calls, r.state.calls);
    } else {
      assert st.calls[..|st.calls|] == st.calls;
    }
  }

  lemma DaysFromFirst(d: Day, last: Day)
    requires d <= last
    ensures DaysFrom(d, last) == [d] + DaysFrom(d + 1, last)
  {
  }

  lemma ExtendsTransitive(a: seq<ApiCall>, b: seq<ApiCall>, c: seq<ApiCall>)
    requires Extends(a, b) && Extends(b, c)
    ensures Extends(a, c)
  {
    assert c[..|a|] == c[..|b|][..|a|];
  }

  /** The calls after position `j` up to `k` are all creations: the lookup at `j` is the
      last one made before the call at `k`. */
  predicate LastLookupBefore(calls: seq<ApiCall>, j: int, k: int)
    requires 0 <= j < k <= |calls|
  {
    calls[j].GetWorkLogs? && forall i :: j < i < k ==> calls[i].CreateWorkLog?
  }

  /** The creation at position `k` of `calls` was made for the day whose lookup came last
      before it: a weekday of `d`..`end` whose lookup resolved to an empty list, and the
      body carries that day's timestamp. */
  ghost predicate PostedForEmptyDay(cal: Calendar, service: Service, d: Day, end: Day, calls: seq<ApiCall>, k: int)
    requires 0 <= k < |calls| && calls[k].CreateWorkLog?
  {
    exists j :: 0 <= j < k && LastLookupBefore(calls, j, k) &&
      var day := calls[j].date;
      d <= day <= end && calls[k].body.timestamp == Timestamp(cal, day) &&
      service.workLogs(day) == Returned(Listed([])) && !IsWeekend(day)
  }

  /** The creations in `calls` after position `from` all belong to weekdays of `d`..`end`
      with an empty lookup, and to the user fetched at the start. */
  ghost predicate CreatesOnlyOnEmptyDays(cal: Calendar, service: Service, me: Option<string>, d: Day, end: Day,
                                         calls: seq<ApiCall>, from: nat)
  {
    forall k :: from <= k < |calls| && calls[k].CreateWorkLog? ==>
      PostedForEmptyDay(cal, service, d, end, calls, k) && me == Some(calls[k].body.userId)
  }

  /** Work logs are created only on weekdays whose lookup found an empty list, each right
      after that day's lookup, and always for the user fetched at the start. */
  lemma {:induction false} RunCreatesOnlyOnEmptyDays(cal: Calendar, service: Service, createResolves: bool, me: Option<string>, d: Day, end: Day, st: State)
    requires |st.templates| > 0
    ensures var r := RunDays(cal, service, createResolves, me, d, end, st);
      Extends(st.calls, r.state.calls) &&
      CreatesOnlyOnEmptyDays(cal, service, me, d, end, r.state.calls, |st.calls|)
    decreases end - d + 1
  {
    if d <= end {
      var v := VisitDay(cal, service, createResolves, me, d, st);
      VisitDayCreatesOnlyOnEmptyDay(cal, service, createResolves, me, d, end, st);
      if v.Next? {
        var r := RunDays(cal, service, createResolves, me, d + 1, end, v.state);
        RunCreatesOnlyOnEmptyDays(cal, service, createResolves, me, d + 1, end, v.state);
        CreationsCombine(cal, service, me, d, end, st.calls, v.state.calls, r.state.calls);
      }
    } else {
      assert st.calls[..|st.calls|] == st.calls;
    }
  }

  lemma VisitDayCreatesOnlyOnEmptyDay(cal: Calendar, service: Service, createResolves: bool, me: Option<string>, d: Day, end: Day, st: State)
    requires |st.templates| > 0 && d <= end
    ensures var v := VisitDay(cal, service, createResolves, me, d, st);
      Extends(st.calls, v.state.calls) &&
      CreatesOnlyOnEmptyDays(cal, service, me, d, end, v.state.calls, |st.calls|)
  {
    var v := VisitDay(cal, service, createResolves, me, d, st);
    var calls := v.state.calls;
    VisitDayCalls(cal, service, createResolves, me, d, st);
    assert calls[..|st.calls| + 1] == st.calls + [GetWorkLogs(d)];
    assert calls[..|st.calls|] == calls[..|st.calls| + 1][..|st.calls|];
    forall k | |st.calls| <= k < |calls| && calls[k].CreateWorkLog?
      ensures PostedForEmptyDay(cal, service, d, end, calls, k) && me == Some(calls[k].body.userId)
    {
      var j := |st.calls|;
      assert calls[j] == GetWorkLogs(d);
      assert k != j && LastLookupBefore(calls, j, k);
    }
  }

  /** The creations of the first day and those of the days after it. */
  lemma CreationsCombine(cal: Calendar, service: Service, me: Option<string>, d: Day, end: Day,
                         before: seq<ApiCall>, mid: seq<ApiCall>, after: seq<ApiCall>)
    requires Extends(before, mid) && Extends(mid, after)
    requires CreatesOnlyOnEmptyDays(cal, service, me, d, end, mid, |before|)
    requires CreatesOnlyOnEmptyDays(cal, service, me, d + 1, end, after, |mid|)
    ensures Extends(before, after) && CreatesOnlyOnEmptyDays(cal, service, me, d, end, after, |before|)
  {
    assert after[..|before|] == after[..|mid|][..|before|];
    forall k | |before| <= k < |after| && after[k].CreateWorkLog?
      ensures PostedForEmptyDay(cal, service, d, end, after, k) && me == Some(after[k].body.userId)
    {
      if k < |mid| {
        assert after[k] == mid[k];
        var j :| 0 <= j < k && LastLookupBefore(mid, j, k) &&
          var day := mid[j].date;
          d <= day <= end && mid[k].body.timestamp == Timestamp(cal, day) &&
          service.workLogs(day) == Returned(Listed([])) && !IsWeekend(day);
        assert forall i :: 0 <= i < |mid| ==> after[i] == mid[i] by {
          forall i | 0 <= i < |mid| ensures after[i] == mid[i] {
            assert after[..|mid|][i] == after[i];
          }
        }
        assert LastLookupBefore(after, j, k);
      } else {
        var j :| 0 <= j < k && LastLookupBefore(after, j, k) &&
          var day := after[j].date;
          d + 1 <= day <= end && after[k].body.timestamp == Timestamp(cal, day) &&
          service.workLogs(day) == Returned(Listed([])) && !IsWeekend(day);
      }
    }
  }

  /** The lookups of the days `d` to `end`, in order. */
  function LookupCalls(d: Day, end: Day): (r: seq<ApiCall>)
    ensures |r| == if d <= end then end - d + 1 else 0
    decreases end - d + 1
  {
    if d > end then [] else [GetWorkLogs(d)] + LookupCalls(d + 1, end)
  }

  /** A day is filled when its lookup resolved to a list that is not empty, or when it is
      a Saturday or a Sunday (which the runner never fills) and its lookup resolved. */
  predicate Filled(service: Service, d: Day)
  {
    service.workLogs(d).Returned? && (service.workLogs(d).value != Listed([]) || IsWeekend(d))
  }

  /** Over a range whose weekdays already have work logs, the run only looks them up: it
      posts nothing and leaves the templates and the random draws alone. A range the
      runner has filled has its weekdays filled, so running it again over that range
      changes nothing. */
  lemma {:induction false} FilledRangeCreatesNothing(cal: Calendar, service: Service, createResolves: bool, me: Option<string>, d: Day, end: Day, st: State)
    requires |st.templates| > 0 && me.Some?
    requires forall day :: d <= day <= end ==> Filled(service, day)
    ensures RunDays(cal, service, createResolves, me, d, end, st) ==
      RunResult(st.(calls := st.calls + LookupCalls(d, end)), Finished)
    decreases end - d + 1
  {
    if d <= end {
      var st1 := st.(calls := st.calls + [GetWorkLogs(d)]);
      FilledDayOnlyLooksUp(cal, service, createResolves, me, d, st);
      FilledRangeCreatesNothing(cal, service, createResolves, me, d + 1, end, st1);
      AppendAssociative(st.calls, [GetWorkLogs(d)], LookupCalls(d + 1, end));
    } else {
      assert st.calls + [] == st.calls;
    }
  }

  /** A filled day is only looked up, once the user is known. */
  lemma FilledDayOnlyLooksUp(cal: Calendar, service: Service, createResolves: bool, me: Option<string>, d: Day, st: State)
    requires |st.templates| > 0 && me.Some? && Filled(service, d)
    ensures VisitDay(cal, service, createResolves, me, d, st) == Next(st.(calls := st.calls + [GetWorkLogs(d)]))
  {
    var st1 := st.(calls := st.calls + [GetWorkLogs(d)]);
    if service.workLogs(d).value == Listed([]) {
      assert CreateTasksSpec(cal, service, createResolves, d, me.value, st1) == DayResult(st1, Continued);
    }
  }

  /** On a Saturday or a Sunday whose lookup is empty the run still makes the lookup, then
      moves on without posting. */
  lemma WeekendOnlyLooksUp(cal: Calendar, service: Service, createResolves: bool, me: Option<string>, d: Day, end: Day, st: State)
    requires |st.templates| > 0 && d <= end && IsWeekend(d) && me.Some?
    requires service.workLogs(d) == Returned(Listed([]))
    ensures RunDays(cal, service, createResolves, me, d, end, st) ==
      RunDays(cal, service, createResolves, me, d + 1, end, st.(calls := st.calls + [GetWorkLogs(d)]))
  {
    assert VisitDay(cal, service, createResolves, me, d, st) == Next(st.(calls := st.calls + [GetWorkLogs(d)]));
  }

  /** The dynamic templates are never reset: a run only ever adds hours to them. */
  lemma {:induction false} RunNeverResetsTemplates(cal: Calendar, service: Service, createResolves: bool, me: Option<string>, d: Day, end: Day, st: State)
    requires |st.templates| > 0
    ensures var r := RunDays(cal, service, createResolves, me, d, end, st);
      SameTasks(r.state.templates, st.templates) &&
      forall i :: 0 <= i < |st.templates| ==> r.state.templates[i].lengthInHour >= st.templates[i].lengthInHour
    decreases end - d + 1
  {
    if d <= end {
      var v := VisitDay(cal, service, createResolves, me, d, st);
      VisitDayOnlyAddsHours(cal, service, createResolves, me, d, st);
      if v.Next? {
        RunNeverResetsTemplates(cal, service, createResolves, me, d + 1, end, v.state);
      }
    }
  }

  /** One day of the loop changes the templates only by adding hours to them. */
  lemma VisitDayOnlyAddsHours(cal: Calendar, service: Service, createResolves: bool, me: Option<string>, d: Day, st: State)
    requires |st.templates| > 0
    ensures var r := VisitDay(cal, service, createResolves, me, d, st);
      SameTasks(r.state.templates, st.templates) &&
      forall i :: 0 <= i < |st.templates| ==> r.state.templates[i].lengthInHour >= st.templates[i].lengthInHour
  {
    var st1 := st.(calls := st.calls + [GetWorkLogs(d)]);
    if service.workLogs(d) == Returned(Listed([])) && me.Some? {
      CreateTasksOnlyAddsHours(cal, service, createResolves, d, me.value, st1);
    }
  }

  lemma CreateTasksOnlyAddsHours(cal: Calendar, service: Service, createResolves: bool, d: Day, userId: string, st: State)
    requires |st.templates| > 0
    ensures var r := CreateTasksSpec(cal, service, createResolves, d, userId, st);
      SameTasks(r.state.templates, st.templates) &&
      forall i :: 0 <= i < |st.templates| ==> r.state.templates[i].lengthInHour >= st.templates[i].lengthInHour
  {
    var p := PlanDay(cal, d, st.templates, st.draws);
    AllocateOnlyAddsHours(st.templates, 0, st.draws);
    assert !p.Skip? ==> SameTasks(p.templates, st.templates);
  }

  /** A run over one public holiday with no work logs yet, once the creation call is
      corrected: the user, the lookup, then a single 7-hour day-off entry. */
  lemma HolidayRun(cal: Calendar, service: Service, d: Day, userId: string, draws: seq<Draw>)
    requires !IsWeekend(d) && IsPublicDay(cal, d)
    requires service.me == Returned(Some(userId)) && service.workLogs(d) == Returned(Listed([]))
    requires !service.createRejects(2)
    ensures RunSpec(cal, service, Resolves(CREATE_CALL), d, d, State(DYNAMIC_WORKING_DAY_TASKS, draws, [])) ==
      RunResult(State(DYNAMIC_WORKING_DAY_TASKS, draws, [GetMe, GetWorkLogs(d),
        CreateWorkLog(PostBody(Some(ACTIVITY_DAY_OFF), 25200, "Jour férié", Timestamp(cal, d), userId))]), Finished)
  {
    assert STATIC_METHODS[5] == CREATE_CALL;
    HolidayPostsOneDayOff(cal, d, DYNAMIC_WORKING_DAY_TASKS, draws, userId);
    var bodies := PostBodies(PUBLIC_DAY_TASKS, Timestamp(cal, d), userId);
    var dayOff := CreateWorkLog(bodies[0]);
    assert bodies[1..] == [];
    assert Issue(true, bodies, service.createRejects, 2) == Issued([dayOff], false);
    var looked := State(DYNAMIC_WORKING_DAY_TASKS, draws, [GetMe, GetWorkLogs(d)]);
    var posted := State(DYNAMIC_WORKING_DAY_TASKS, draws, [GetMe, GetWorkLogs(d), dayOff]);
    assert CreateTasksSpec(cal, service, true, d, userId, looked) == DayResult(posted, Continued);
    var started := State(DYNAMIC_WORKING_DAY_TASKS, draws, [GetMe]);
    assert State(DYNAMIC_WORKING_DAY_TASKS, draws, []).(calls := [] + [GetMe]) == started;
    assert VisitDay(cal, service, true, Some(userId), d, started) == Next(posted);
    assert RunDays(cal, service, true, Some(userId), d, d, started) == RunResult(posted, Finished);
  }

  /** The same run as the code is written: the lookup is made, then the creation throws
      before any request, so nothing is posted and the run ends on that day. */
  lemma HolidayRunAsWritten(cal: Calendar, service: Service, d: Day, userId: string, draws: seq<Draw>)
    requires !IsWeekend(d) && IsPublicDay(cal, d)
    requires service.me == Returned(Some(userId)) && service.workLogs(d) == Returned(Listed([]))
    ensures RunSpec(cal, service, Resolves(CREATE_CALL_AS_WRITTEN), d, d, State(DYNAMIC_WORKING_DAY_TASKS, draws, [])) ==
      RunResult(State(DYNAMIC_WORKING_DAY_TASKS, draws, [GetMe, GetWorkLogs(d)]), ThrewOn(d))
  {
    assert CREATE_CALL_AS_WRITTEN != STATIC_METHODS[5];
    var started := State(DYNAMIC_WORKING_DAY_TASKS, draws, [GetMe]);
    var looked := State(DYNAMIC_WORKING_DAY_TASKS, draws, [GetMe, GetWorkLogs(d)]);
    assert State(DYNAMIC_WORKING_DAY_TASKS, draws, []).(calls := [] + [GetMe]) == started;
    assert CreateTasksSpec(cal, service, false, d, userId, looked) == DayResult(looked, Threw);
    assert VisitDay(cal, service, false, Some(userId), d, started) == Stop(looked, ThrewOn(d));
  }

  /** As written, one day of the loop makes its lookup and no request after it. On a
      weekday whose lookup is an empty list, with the user known and the hour split
      finished, the first creation throws: the run stops on that day, with the split's
      templates and draws but nothing posted. */
  lemma VisitDayAsWritten(cal: Calendar, service: Service, me: Option<string>, d: Day, st: State)
    requires |st.templates| > 0
    ensures var r := VisitDay(cal, service, Resolves(CREATE_CALL_AS_WRITTEN), me, d, st);
      r.state.calls == st.calls + [GetWorkLogs(d)]
    ensures var p := PlanDay(cal, d, st.templates, st.draws);
      !IsWeekend(d) && service.workLogs(d) == Returned(Listed([])) && me.Some? && p.Tasks? ==>
        VisitDay(cal, service, Resolves(CREATE_CALL_AS_WRITTEN), me, d, st) ==
          Stop(State(p.templates, p.rest, st.calls + [GetWorkLogs(d)]), ThrewOn(d))
  {
    assert CREATE_CALL_AS_WRITTEN != STATIC_METHODS[5];
    var p := PlanDay(cal, d, st.templates, st.draws);
    if p.Tasks? {
      assert p.tasks != [] by {
        if IsPublicDay(cal, d) { assert p.tasks == PUBLIC_DAY_TASKS; }
        else { assert p.tasks[..|STATIC_WORKING_DAY_TASKS|] == STATIC_WORKING_DAY_TASKS; }
      }
    }
  }

  /** As written, a run makes the day's lookups and nothing else: no work log is ever
      posted. */
  lemma {:induction false} RunAsWrittenPostsNothing(cal: Calendar, service: Service, me: Option<string>, d: Day, end: Day, st: State)
    requires |st.templates| > 0
    ensures var r := RunDays(cal, service, Resolves(CREATE_CALL_AS_WRITTEN), me, d, end, st);
      (!r.outcome.Finished? ==> d <= LastDay(r.outcome, end) <= end) &&
      r.state.calls == st.calls + LookupCalls(d, LastDay(r.outcome, end))
    decreases end - d + 1
  {
    var resolves := Resolves(CREATE_CALL_AS_WRITTEN);
    if d <= end {
      VisitDayAsWritten(cal, service, me, d, st);
      match VisitDay(cal, service, resolves, me, d, st)
      case Stop(st1, outcome) =>
        assert LookupCalls(d, d) == [GetWorkLogs(d)];
      case Next(st1) =>
        var r := RunDays(cal, service, resolves, me, d + 1, end, st1);
        RunAsWrittenPostsNothing(cal, service, me, d + 1, end, st1);
        assert LookupCalls(d, LastDay(r.outcome, end)) == [GetWorkLogs(d)] + LookupCalls(d + 1, LastDay(r.outcome, end));
        AppendAssociative(st.calls, [GetWorkLogs(d)], LookupCalls(d + 1, LastDay(r.outcome, end)));
    } else {
      assert st.calls + [] == st.calls;
    }
  }

  /** The converse of `VisitDayCalls`, once the creation call is corrected: a weekday whose
      lookup is an empty list, with the user known, the hour split finished and no creation
      rejected, gets every task of its list posted, in order. */
  lemma EmptyWeekdayPosts(cal: Calendar, service: Service, d: Day, userId: string, st: State)
    requires |st.templates| > 0 && !IsWeekend(d)
    requires service.workLogs(d) == Returned(Listed([]))
    requires PlanDay(cal, d, st.templates, st.draws).Tasks?
    requires forall n :: |st.calls| + 1 <= n < |st.calls| + 1 + |PlanDay(cal, d, st.templates, st.draws).tasks| ==>
      !service.createRejects(n)
    ensures var p := PlanDay(cal, d, st.templates, st.draws);
      VisitDay(cal, service, Resolves(CREATE_CALL), Some(userId), d, st) ==
        Next(State(p.templates, p.rest, st.calls + [GetWorkLogs(d)] + Creations(PostBodies(p.tasks, Timestamp(cal, d), userId))))
  {
    var p := PlanDay(cal, d, st.templates, st.draws);
    var bodies := PostBodies(p.tasks, Timestamp(cal, d), userId);
    var st1 := st.(calls := st.calls + [GetWorkLogs(d)]);
    CreationsPostedInOrder(bodies, service.createRejects, |st1.calls|);
    assert CreateTasksSpec(cal, service, true, d, userId, st1) ==
      DayResult(State(p.templates, p.rest, st1.calls + Creations(bodies)), Continued);
  }

  // ---------------------------------------------------------------------------------
  // The runner

  class Runner {
    /** `DYNAMIC_WORKING_DAY_TASKS`, updated in place by the hour split. */
    const dynamic: array<Template>
    /** The values Math.random() has yet to return, two per draw. */
    var draws: seq<Draw>
    /** Every call made on the service so far, in order. */
    var calls: seq<ApiCall>
    /** Whether `TimeTrackerAPI[name]`, for the name the runner calls the creation by, is a
        method of the API class. */
    const createResolves: bool

    ghost predicate Valid()
    {
      dynamic.Length == |DYNAMIC_WORKING_DAY_TASKS|
    }

    ghost function Current(): State
      reads this, dynamic
    {
      State(dynamic[..], draws, calls)
    }

    constructor (createCall: string, randoms: seq<Draw>)
      ensures Valid() && fresh(dynamic)
      ensures createResolves == Resolves(createCall)
      ensures Current() == State(DYNAMIC_WORKING_DAY_TASKS, randoms, [])
    {
      createResolves := Resolves(createCall);
      dynamic := new Template[3](i requires 0 <= i < 3 => DYNAMIC_WORKING_DAY_TASKS[i]);
      draws := randoms;
      calls := [];
      new;
      assert dynamic[..] == DYNAMIC_WORKING_DAY_TASKS;
    }

    /** The hour split of a working day: keeps `hours + neededHours == REMAINING_HOURS`,
        adds each draw's hours to one template, and stops once all 3 hours are placed
        (`hours == REMAINING_HOURS`) or the draws run out. */
    method AllocateRemaining() returns (hours: nat)
      requires Valid()
      modifies this`draws, dynamic
      ensures var a := Allocate(old(dynamic[..]), 0, old(draws));
        dynamic[..] == a.templates &&
        draws == (if a.Allocated? then a.rest else []) &&
        hours <= REMAINING_HOURS &&
        (hours == REMAINING_HOURS <==> a.Allocated?)
    {
      hours := 0;
      var neededHours := REMAINING_HOURS - hours;
      while hours < REMAINING_HOURS && draws != []
        invariant 0 <= hours <= REMAINING_HOURS
        invariant hours + neededHours == REMAINING_HOURS
        invariant Allocate(dynamic[..], hours, draws) == Allocate(old(dynamic[..]), 0, old(draws))
        decreases |draws|
      {
        var draw := draws[0];
        draws := draws[1..];
        var randHours := Between(0, neededHours, draw.forHours);
        var randType := Between(0, dynamic.Length - 1, draw.forTemplate);
        dynamic[randType] := dynamic[randType].(lengthInHour := dynamic[randType].lengthInHour + randHours);
        hours := hours + randHours;
        neededHours := REMAINING_HOURS - hours;
      }
    }

    /** The awaited `reduce` of `createTasks`: build each task's body and post it, waiting
        for each creation before the next. */
    method IssueCreations(tasks: seq<Template>, timestamp: string, userId: string, service: Service)
      returns (rejected: bool)
      modifies this`calls
      ensures var r := Issue(createResolves, PostBodies(tasks, timestamp, userId), service.createRejects, |old(calls)|);
        calls == old(calls) + r.calls && rejected == r.rejected
    {
      var bodies := PostBodies(tasks, timestamp, userId);
      var at := |calls|;
      ghost var whole := Issue(createResolves, bodies, service.createRejects, at);
      assert bodies[0..] == bodies;
      var i := 0;
      while i < |bodies|
        invariant 0 <= i <= |bodies| && |calls| == at + i
        invariant createResolves || i == 0
        invariant old(calls) + whole.calls == calls + Issue(createResolves, bodies[i..], service.createRejects, at + i).calls
        invariant whole.rejected == Issue(createResolves, bodies[i..], service.createRejects, at + i).rejected
      {
        var postData := bodies[i];
        if !createResolves {
          // Calling a name the class does not define throws a TypeError before any request.
          IssueStepUnresolved(old(calls), calls, whole, bodies, service.createRejects, at, i);
          return true;
        }
        IssueStep(old(calls), calls, whole, bodies, service.createRejects, at, i);
        calls := calls + [CreateWorkLog(postData)];
        if service.createRejects(at + i) {
          return true;
        }
        i := i + 1;
      }
      assert bodies[i..] == [];
      rejected := false;
    }

    /** `createTasks(date, userId)` */
    method CreateTasks(cal: Calendar, service: Service, d: Day, userId: string) returns (step: Step)
      requires Valid()
      modifies this, dynamic
      ensures var r := CreateTasksSpec(cal, service, createResolves, d, userId, old(Current()));
        Current() == r.state && step == r.step
    {
      if IsSaturday(d) {
        return Continued;
      }
      if IsSunday(d) {
        return Continued;
      }
      var timestamp := Timestamp(cal, d);
      var tasks: seq<Template>;
      if IsPublicDay(cal, d) {
        tasks := PUBLIC_DAY_TASKS;
      } else {
        var hours := AllocateRemaining();
        if hours < REMAINING_HOURS {
          return Looping;
        }
        tasks := STATIC_WORKING_DAY_TASKS + Positive(dynamic[..]);
      }
      var rejected := IssueCreations(tasks, timestamp, userId, service);
      step := if rejected then Threw else Continued;
    }

    /** `run()` */
    method Run(cal: Calendar, service: Service, startDate: Day, endDate: Day) returns (outcome: RunOutcome)
      requires Valid()
      modifies this, dynamic
      ensures var r := RunSpec(cal, service, createResolves, startDate, endDate, old(Current()));
        Current() == r.state && outcome == r.outcome
    {
      calls := calls + [GetMe];
      if service.me.Rejected? {
        return ThrewBeforeLoop;
      }
      var me := service.me.value;
      var date := startDate;
      while date <= endDate
        invariant Valid()
        invariant RunDays(cal, service, createResolves, me, date, endDate, Current()) == RunSpec(cal, service, createResolves, startDate, endDate, old(Current()))
        decreases endDate - date + 1
      {
        calls := calls + [GetWorkLogs(date)];
        var workLogs := service.workLogs(date);
        if workLogs.Rejected? {
          return ThrewOn(date);
        }
        if workLogs.value == Listed([]) {
          if me.None? {
            return ThrewOn(date);
          }
          var step := CreateTasks(cal, service, date, me.value);
          if step == Threw {
            return ThrewOn(date);
          } else if step == Looping {
            return LoopingOn(date);
          }
        }
        date := date + 1;
      }
      outcome := Finished;
    }
  }
}
