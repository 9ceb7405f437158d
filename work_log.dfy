/** Task templates and the work-log bodies built from them. */
module WorkLog {
  import opened Wrappers
  import opened Calendar

  const ONE_HOUR_IN_SEC := 3600

  /** A task object as the code writes it. The static and public-day lists use the key
      `activityTypeId`; the dynamic list uses `activityType`, so reading `activityTypeId`
      from a dynamic task gives `undefined` (`None`). */
  datatype Template = Template(
    lengthInHour: nat,
    activityTypeId: Option<string>,
    activityType: Option<string>,
    comment: string)

  /** `{lengthInHour, activityTypeId, comment}` */
  function Task(lengthInHour: nat, activityTypeId: string, comment: string): Template
  {
    Template(lengthInHour, Some(activityTypeId), None, comment)
  }

  /** `{lengthInHour, activityType, comment}` */
  function DynamicTask(lengthInHour: nat, activityType: string, comment: string): Template
  {
    Template(lengthInHour, None, Some(activityType), comment)
  }

  /** The work-log body posted for one task. The three fields the code always sets to
      null (`workItemId`, `repoId`, `repoFullName`) are not represented. */
  datatype PostBody = PostBody(
    activityTypeId: Option<string>,
    length: int,
    comment: string,
    timestamp: string,
    userId: string)

  /** Midnight, UTC notation, of the day: `yyyy-MM-ddT00:00:00.000Z`. */
  function Timestamp(cal: Calendar, d: Day): (s: string)
    ensures |s| == |cal.dateText(d)| + 14
    ensures s[..|cal.dateText(d)|] == cal.dateText(d) && s[|cal.dateText(d)|..] == "T00:00:00.000Z"
  {
    cal.dateText(d) + "T00:00:00.000Z"
  }

  function TotalHours(ts: seq<Template>): nat
  {
    if ts == [] then 0 else ts[0].lengthInHour + TotalHours(ts[1..])
  }

  function TotalLength(bs: seq<PostBody>): int
  {
    if bs == [] then 0 else bs[0].length + TotalLength(bs[1..])
  }

  function ToPostBody(t: Template, timestamp: string, userId: string): PostBody
  {
    PostBody(t.activityTypeId, t.lengthInHour * ONE_HOUR_IN_SEC, t.comment, timestamp, userId)
  }

  /** One body per task, in task order: the task's hours in seconds, its activity id and
      comment, and the shared timestamp and user id. */
  function PostBodies(ts: seq<Template>, timestamp: string, userId: string): (r: seq<PostBody>)
    ensures |r| == |ts|
    ensures forall i :: 0 <= i < |ts| ==>
      r[i].length == ts[i].lengthInHour * 3600 && r[i].activityTypeId == ts[i].activityTypeId &&
      r[i].comment == ts[i].comment && r[i].timestamp == timestamp && r[i].userId == userId
  {
    if ts == [] then [] else [ToPostBody(ts[0], timestamp, userId)] + PostBodies(ts[1..], timestamp, userId)
  }

  lemma {:induction false} TotalHoursAppend(a: seq<Template>, b: seq<Template>)
    ensures TotalHours(a + b) == TotalHours(a) + TotalHours(b)
  {
    if a == [] {
      assert a + b == b;
    } else {
      TotalHoursAppend(a[1..], b);
      assert (a + b)[1..] == a[1..] + b;
    }
  }

  /** Changing one task's hours changes the total by exactly the difference. */
  lemma {:induction false} TotalHoursUpdate(ts: seq<Template>, k: nat, t: Template)
    requires k < |ts|
    ensures TotalHours(ts[k := t]) == TotalHours(ts) - ts[k].lengthInHour + t.lengthInHour
  {
    if k > 0 {
      TotalHoursUpdate(ts[1..], k - 1, t);
      assert ts[k := t][1..] == ts[1..][k - 1 := t];
    }
  }

  lemma {:induction false} TotalLengthAppend(a: seq<PostBody>, b: seq<PostBody>)
    ensures TotalLength(a + b) == TotalLength(a) + TotalLength(b)
  {
    if a == [] {
      assert a + b == b;
    } else {
      assert (a + b)[1..] == a[1..] + b;
      TotalLengthAppend(a[1..], b);
    }
  }

  /** The bodies of a task list add up to its hours, in seconds. */
  lemma {:induction false} TotalLengthOfBodies(ts: seq<Template>, timestamp: string, userId: string)
    ensures TotalLength(PostBodies(ts, timestamp, userId)) == TotalHours(ts) * ONE_HOUR_IN_SEC
  {
    if ts != [] {
      TotalLengthOfBodies(ts[1..], timestamp, userId);
    }
  }
}
