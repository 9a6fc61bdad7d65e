/**
 * The schedules API (api/lambda/schedules/handler.py): the schedules table
 * and the five operations of `/schedules` and `/schedules/{id}`, with the
 * five-field check on cron expressions.
 */
module Schedules {
  import opened Wrappers
  import opened PyJson
  import Strings
  import opened LambdaEvent
  import opened ItemTable

  /** The basic cron check: `len(expr.split()) == 5`. */
  predicate ValidCron(expr: string)
  {
    |Strings.PySplit(expr)| == 5
  }

  /** Whitespace around an expression does not change whether it is accepted. */
  lemma CronIgnoresSurroundingSpace(before: string, expr: string, after: string)
    requires Strings.AllSpaces(before) && Strings.AllSpaces(after)
    ensures ValidCron(before + expr + after) <==> ValidCron(expr)
  {
    Strings.LeadingSpacesIgnored(before, expr + after);
    assert before + expr + after == before + (expr + after);
    Strings.TrailingSpacesIgnored(expr, after);
  }

  /** The item's `cronExpression`, if it has one, is a string that passes the check. */
  predicate CronStored(item: Item)
  {
    "cronExpression" in item ==> item["cronExpression"].JStr? && ValidCron(item["cronExpression"].s)
  }

  /** Every stored schedule passes the cron check. */
  ghost predicate CronsValid(table: Table)
  {
    forall id :: id in table ==> CronStored(table[id])
  }

  lemma CronsValidPut(table: Table, id: Json, item: Item)
    requires CronStored(item)
    ensures CronsValid(table) ==> CronsValid(table[id := item])
  {
  }

  lemma CronsValidUpdate(table: Table, id: Json, changes: Item)
    requires id in table && CronStored(changes)
    ensures CronsValid(table) ==> CronsValid(table[id := table[id] + changes])
  {
    if CronsValid(table) {
      assert CronStored(table[id]);
      CronsValidPut(table, id, table[id] + changes);
    }
  }

  lemma CronsValidRemove(table: Table, id: Json)
    ensures CronsValid(table) ==> CronsValid(table - {id})
  {
  }

  /** The schedule as the read operations return it; `enabled` defaults to True. */
  function ScheduleView(item: Item): (v: Json)
    ensures v.JObj?
    ensures v.fields.Keys == {"id", "name", "cronExpression", "enabled", "createdAt", "updatedAt"}
    ensures forall k :: k in v.fields && k != "enabled" ==> v.fields[k] == Get(item, k)
    ensures v.fields["enabled"] == if "enabled" in item then item["enabled"] else JBool(true)
  {
    JObj(map[
      "id" := Get(item, "id"),
      "name" := Get(item, "name"),
      "cronExpression" := Get(item, "cronExpression"),
      "enabled" := GetOr(item, "enabled", JBool(true)),
      "createdAt" := Get(item, "createdAt"),
      "updatedAt" := Get(item, "updatedAt")])
  }

  /**
   * The schedule `create_schedule` writes: 500 when the body is not a dict or
   * the expression is not a string (`split` raises), 400 when the name or the
   * expression is falsy or the expression does not have five fields.
   */
  function NewSchedule(userId: Json, body: Json, id: string, now: string): (r: Result<Item, Response>)
    ensures !body.JObj? ==> r == Err(Response(500, Message("Error creating schedule")))
    ensures body.JObj? && !Truthy(Get(body.fields, "name")) ==> r == Err(Response(400, Message("Name is required")))
    ensures body.JObj? && Truthy(Get(body.fields, "name")) && !Truthy(Get(body.fields, "cronExpression")) ==>
      r == Err(Response(400, Message("Cron expression is required")))
    ensures (body.JObj? && Truthy(Get(body.fields, "name")) && Truthy(Get(body.fields, "cronExpression"))
      && !Get(body.fields, "cronExpression").JStr?) ==> r == Err(Response(500, Message("Error creating schedule")))
    ensures (body.JObj? && Truthy(Get(body.fields, "name")) && Truthy(Get(body.fields, "cronExpression"))
      && Get(body.fields, "cronExpression").JStr? && !ValidCron(Get(body.fields, "cronExpression").s)) ==>
      r == Err(Response(400, Message("Invalid cron expression format")))
    ensures r.Ok? <==>
      && body.JObj? && Truthy(Get(body.fields, "name"))
      && Get(body.fields, "cronExpression").JStr? && ValidCron(Get(body.fields, "cronExpression").s)
    ensures r.Ok? ==>
      var s := r.value;
      && s.Keys == {"id", "userId", "name", "cronExpression", "enabled", "createdAt", "updatedAt"}
      && s["id"] == JStr(id) && s["userId"] == userId
      && s["name"] == body.fields["name"] && s["cronExpression"] == body.fields["cronExpression"]
      && s["enabled"] == GetOr(body.fields, "enabled", JBool(true))
      && s["createdAt"] == JStr(now) && s["updatedAt"] == JStr(now)
  {
    if !body.JObj? then Err(Response(500, Message("Error creating schedule")))
    else
      var name := Get(body.fields, "name");
      var cron := Get(body.fields, "cronExpression");
      if !Truthy(name) then Err(Response(400, Message("Name is required")))
      else if !Truthy(cron) then Err(Response(400, Message("Cron expression is required")))
      else if !cron.JStr? then Err(Response(500, Message("Error creating schedule")))
      else if !ValidCron(cron.s) then Err(Response(400, Message("Invalid cron expression format")))
      else Ok(ScheduleRecord(JStr(id), userId, name, cron, GetOr(body.fields, "enabled", JBool(true)), JStr(now)))
  }

  /** The record `create_schedule` stores: both timestamps are the creation time. */
  function ScheduleRecord(id: Json, userId: Json, name: Json, cron: Json, enabled: Json, now: Json): (s: Item)
    ensures s.Keys == {"id", "userId", "name", "cronExpression", "enabled", "createdAt", "updatedAt"}
    ensures s["id"] == id && s["userId"] == userId && s["name"] == name && s["cronExpression"] == cron
    ensures s["enabled"] == enabled && s["createdAt"] == now && s["updatedAt"] == now
  {
    map[
      "id" := id, "userId" := userId, "name" := name, "cronExpression" := cron,
      "enabled" := enabled, "createdAt" := now, "updatedAt" := now]
  }

  /**
   * The attributes an update sets from the fields the body supplies
   * (`None` for one it does not), and `updatedAt`.
   */
  function ScheduleUpdates(name: Option<Json>, cron: Option<Json>, enabled: Option<Json>, now: string): (c: Item)
    ensures c.Keys == {"updatedAt"} + (if name.Some? then {"name"} else {})
      + (if cron.Some? then {"cronExpression"} else {}) + (if enabled.Some? then {"enabled"} else {})
    ensures c["updatedAt"] == JStr(now)
    ensures name.Some? ==> c["name"] == name.value
    ensures cron.Some? ==> c["cronExpression"] == cron.value
    ensures enabled.Some? ==> c["enabled"] == enabled.value
  {
    var withName: Item := if name.Some? then map["name" := name.value] else map[];
    var withCron := if cron.Some? then withName["cronExpression" := cron.value] else withName;
    var withEnabled := if enabled.Some? then withCron["enabled" := enabled.value] else withCron;
    withEnabled["updatedAt" := JStr(now)]
  }

  /**
   * The attributes `update_schedule` sets, tested in the source's order:
   * `name`, then `cronExpression` (which must be a string of five fields),
   * then `enabled`; `updatedAt` always. 500 when testing the body raises,
   * 400 for a malformed expression.
   */
  function ScheduleChanges(body: Json, now: string): (r: Result<Item, Response>)
    ensures r.Ok? ==> r.value.Keys <= {"name", "cronExpression", "enabled", "updatedAt"}
    ensures r.Ok? ==> "updatedAt" in r.value && r.value["updatedAt"] == JStr(now)
    ensures r.Ok? ==> CronStored(r.value)
    ensures r.Err? ==> r.error.statusCode in {400, 500}
  {
    var failed := Response(500, Message("Error updating schedule"));
    match BodyField(body, "name")
    case None => Err(failed)
    case Some(name) =>
      match BodyField(body, "cronExpression")
      case None => Err(failed)
      case Some(cron) =>
        if cron.Some? && !cron.value.JStr? then Err(failed)
        else if cron.Some? && !ValidCron(cron.value.s) then Err(Response(400, Message("Invalid cron expression format")))
        else
          match BodyField(body, "enabled")
          case None => Err(failed)
          case Some(enabled) =>
            Ok(ScheduleUpdates(name, cron, enabled, now))
  }

  /** The field a dict body supplies for `key`, if any. */
  function Supplied(body: map<string, Json>, key: string): Option<Json>
  {
    if key in body then Some(body[key]) else None
  }

  /** The changes a dict body makes, written out. */
  lemma ChangesOfObject(body: map<string, Json>, now: string)
    ensures var cron := Supplied(body, "cronExpression");
      ScheduleChanges(JObj(body), now) ==
        if cron.Some? && !(cron.value.JStr? && ValidCron(cron.value.s)) then
          Err(if cron.value.JStr? then Response(400, Message("Invalid cron expression format"))
              else Response(500, Message("Error updating schedule")))
        else
          Ok(ScheduleUpdates(Supplied(body, "name"), cron, Supplied(body, "enabled"), now))
  {
    var b := JObj(body);
    assert BodyField(b, "name") == Some(Supplied(body, "name"));
    assert BodyField(b, "cronExpression") == Some(Supplied(body, "cronExpression"));
    assert BodyField(b, "enabled") == Some(Supplied(body, "enabled"));
  }

  /** A dict body fails only on a malformed expression, and otherwise sets exactly what it supplies. */
  lemma UpdateOfObject(item: Item, body: map<string, Json>, now: string)
    ensures ScheduleChanges(JObj(body), now).Err? <==>
      "cronExpression" in body && !(body["cronExpression"].JStr? && ValidCron(body["cronExpression"].s))
    ensures ScheduleChanges(JObj(body), now).Ok? ==>
      var n := item + ScheduleChanges(JObj(body), now).value;
      && (forall k :: k in {"name", "cronExpression", "enabled"} && k in body ==> k in n && n[k] == body[k])
      && (forall k :: k != "updatedAt" && (k !in {"name", "cronExpression", "enabled"} || k !in body) ==>
            (k in n <==> k in item) && (k in item ==> n[k] == item[k]))
  {
    ChangesOfObject(body, now);
    var cron := Supplied(body, "cronExpression");
    if !(cron.Some? && !(cron.value.JStr? && ValidCron(cron.value.s))) {
      var c := ScheduleUpdates(Supplied(body, "name"), cron, Supplied(body, "enabled"), now);
      assert forall k :: k in c <==> k == "updatedAt" || (k in {"name", "cronExpression", "enabled"} && k in body);
      assert forall k :: k in c && k != "updatedAt" ==> c[k] == body[k];
    }
  }

  class SchedulesApi {
    /** The schedules table. */
    var schedules: Table
    /** The `SCHEDULES_TABLE` environment variable. */
    const schedulesTable: Option<string>

    constructor(schedulesTable: Option<string>, schedules: Table)
      ensures this.schedulesTable == schedulesTable && this.schedules == schedules
    {
      this.schedulesTable := schedulesTable;
      this.schedules := schedules;
    }

    predicate Configured()
      reads this
    {
      schedulesTable.Some? && schedulesTable.value != ""
    }

    /** `get_schedules`: the caller's schedules, each once, formatted. */
    method GetSchedules(userId: Json) returns (resp: Response, ghost order: seq<Json>)
      ensures resp.statusCode == 200 && resp.body.JArr?
      ensures |order| == |resp.body.elems|
      ensures forall i, j :: 0 <= i < j < |order| ==> order[i] != order[j]
      ensures forall id :: id in order <==> id in Owned(schedules, userId)
      ensures forall i :: 0 <= i < |order| ==> order[i] in schedules && resp.body.elems[i] == ScheduleView(schedules[order[i]])
      ensures Lists(schedules, userId, ScheduleView, resp.body.elems)
    {
      var views;
      views, order := QueryByUser(schedules, userId, ScheduleView);
      resp := Response(200, JArr(views));
    }

    /** `get_schedule`: 404 or 403 from the guards, else the schedule formatted. */
    function GetSchedule(userId: Json, scheduleId: Json): (resp: Response)
      reads this
      ensures resp.statusCode == 200 <==>
        scheduleId in schedules && schedules[scheduleId] != map[] && Get(schedules[scheduleId], "userId") == userId
      ensures resp.statusCode == 200 ==> resp.body == ScheduleView(schedules[scheduleId])
    {
      match OwnedItem(schedules, userId, scheduleId, "Schedule not found")
      case Err(r) => r
      case Ok(item) => Response(200, ScheduleView(item))
    }

    /** `create_schedule`, with the generated id and the time passed in. */
    method CreateSchedule(userId: Json, body: Json, newId: string, now: string) returns (resp: Response)
      modifies this
      ensures match NewSchedule(userId, body, newId, now)
        case Err(r) => resp == r && schedules == old(schedules)
        case Ok(s) => resp == Response(201, JObj(s)) && schedules == old(schedules)[JStr(newId) := s]
      ensures old(CronsValid(schedules)) ==> CronsValid(schedules)
    {
      if !body.JObj? {
        return Response(500, Message("Error creating schedule"));
      }
      var name := Get(body.fields, "name");
      var cron := Get(body.fields, "cronExpression");
      if !Truthy(name) {
        return Response(400, Message("Name is required"));
      }
      if !Truthy(cron) {
        return Response(400, Message("Cron expression is required"));
      }
      if !cron.JStr? {
        return Response(500, Message("Error creating schedule"));
      }
      if |Strings.PySplit(cron.s)| != 5 {
        return Response(400, Message("Invalid cron expression format"));
      }
      var schedule := ScheduleRecord(JStr(newId), userId, name, cron, GetOr(body.fields, "enabled", JBool(true)), JStr(now));
      CronsValidPut(schedules, JStr(newId), schedule);
      schedules := schedules[JStr(newId) := schedule];
      resp := Response(201, JObj(schedule));
    }

    /** `update_schedule`, with the current time passed in. */
    method UpdateSchedule(userId: Json, scheduleId: Json, body: Json, now: string) returns (resp: Response)
      modifies this
      ensures match OwnedItem(old(schedules), userId, scheduleId, "Schedule not found")
        case Err(r) => resp == r && schedules == old(schedules)
        case Ok(item) =>
          match ScheduleChanges(body, now)
          case Err(r) => resp == r && schedules == old(schedules)
          case Ok(changes) =>
            schedules == old(schedules)[scheduleId := item + changes] && resp == Response(200, JObj(item + changes))
      ensures old(CronsValid(schedules)) ==> CronsValid(schedules)
    {
      var found := OwnedItem(schedules, userId, scheduleId, "Schedule not found");
      if found.Err? {
        return found.error;
      }
      var item := found.value;
      var failed := Response(500, Message("Error updating schedule"));
      var name := BodyField(body, "name");
      if name.None? {
        assert ScheduleChanges(body, now) == Err(failed);
        return failed;
      }
      var cron := BodyField(body, "cronExpression");
      if cron.None? {
        assert ScheduleChanges(body, now) == Err(failed);
        return failed;
      }
      if cron.value.Some? {
        if !cron.value.value.JStr? {
          assert ScheduleChanges(body, now) == Err(failed);
          return failed;
        }
        if |Strings.PySplit(cron.value.value.s)| != 5 {
          assert !ValidCron(cron.value.value.s);
          assert ScheduleChanges(body, now) == Err(Response(400, Message("Invalid cron expression format")));
          return Response(400, Message("Invalid cron expression format"));
        }
      }
      var enabled := BodyField(body, "enabled");
      if enabled.None? {
        assert ScheduleChanges(body, now) == Err(failed);
        return failed;
      }
      var changes := ScheduleUpdates(name.value, cron.value, enabled.value, now);
      assert ScheduleChanges(body, now) == Ok(changes);
      CronsValidUpdate(schedules, scheduleId, changes);
      schedules := schedules[scheduleId := item + changes];
      resp := Response(200, JObj(schedules[scheduleId]));
    }

    /** `delete_schedule`: after the guards, the schedule is removed. */
    method DeleteSchedule(userId: Json, scheduleId: Json) returns (resp: Response)
      modifies this
      ensures match OwnedItem(old(schedules), userId, scheduleId, "Schedule not found")
        case Err(r) => resp == r && schedules == old(schedules)
        case Ok(_) => resp == Response(200, Message("Schedule deleted successfully")) && schedules == old(schedules) - {scheduleId}
      ensures old(CronsValid(schedules)) ==> CronsValid(schedules)
    {
      var found := OwnedItem(schedules, userId, scheduleId, "Schedule not found");
      if found.Err? {
        return found.error;
      }
      CronsValidRemove(schedules, scheduleId);
      schedules := schedules - {scheduleId};
      resp := Response(200, Message("Schedule deleted successfully"));
    }

    /** `lambda_handler`: route the event and run the operation it names. */
    method Handle(event: Event, decode: string -> Option<Json>, newId: string, now: string) returns (resp: Response)
      modifies this
      ensures var d := Route(event, old(Configured()), decode, "/schedules", "Schedule ID is required");
        && (d.Answer? ==> resp == d.response && schedules == old(schedules))
        && (d.Fetch? ==> resp == old(GetSchedule(d.userId, d.id)) && schedules == old(schedules))
        && (d.List? ==> resp.statusCode == 200 && resp.body.JArr? && Lists(schedules, d.userId, ScheduleView, resp.body.elems) && schedules == old(schedules))
      ensures var d := Route(event, old(Configured()), decode, "/schedules", "Schedule ID is required");
        d.Create? ==>
          match NewSchedule(d.userId, d.body, newId, now)
          case Err(r) => resp == r && schedules == old(schedules)
          case Ok(s) => resp == Response(201, JObj(s)) && schedules == old(schedules)[JStr(newId) := s]
      ensures var d := Route(event, old(Configured()), decode, "/schedules", "Schedule ID is required");
        d.Update? ==>
          match OwnedItem(old(schedules), d.userId, d.id, "Schedule not found")
          case Err(r) => resp == r && schedules == old(schedules)
          case Ok(item) =>
            match ScheduleChanges(d.body, now)
            case Err(r) => resp == r && schedules == old(schedules)
            case Ok(changes) => resp == Response(200, JObj(item + changes)) && schedules == old(schedules)[d.id := item + changes]
      ensures var d := Route(event, old(Configured()), decode, "/schedules", "Schedule ID is required");
        d.Remove? ==>
          match OwnedItem(old(schedules), d.userId, d.id, "Schedule not found")
          case Err(r) => resp == r && schedules == old(schedules)
          case Ok(_) => resp == Response(200, Message("Schedule deleted successfully")) && schedules == old(schedules) - {d.id}
      ensures old(CronsValid(schedules)) ==> CronsValid(schedules)
    {
      var d := Route(event, Configured(), decode, "/schedules", "Schedule ID is required");
      match d {
        case Answer(r) => resp := r;
        case List(u) => ghost var order; resp, order := GetSchedules(u);
        case Create(u, body) => resp := CreateSchedule(u, body, newId, now);
        case Fetch(u, id) => resp := GetSchedule(u, id);
        case Update(u, id, body) => resp := UpdateSchedule(u, id, body, now);
        case Remove(u, id) => resp := DeleteSchedule(u, id);
      }
    }
  }
}
