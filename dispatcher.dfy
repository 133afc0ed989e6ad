/** The tool-call dispatcher (`handleToolCall`): one response per
    model-issued call, each computed by a chain of name tests, with any
    exception a handler raises turned into an error payload. */
module Dispatcher {
  import opened VancixTypes
  import opened ToolSchema
  import opened BoundedLists

  /** A model-issued function call; all argument values are strings. */
  datatype ToolCall = ToolCall(id: string, name: string, args: map<string, string>)

  /** The `response` object of one function response. */
  datatype Payload =
    | Status(status: string)
    | Result(result: string)
    | DateTime(dateTime: string)
    | Contacts(contacts: seq<Contact>)
    | ScheduleList(schedule: seq<ScheduleEntry>)
    | Failed(error: string)

  datatype FunctionResponse = FunctionResponse(id: string, name: string, response: Payload)

  /** What a handler hands to the browser through `window.open`: a new tab,
      a `tel:` link, or an `sms:` link whose body is the message text
      (its percent-encoding is not modelled). */
  datatype Effect = OpenTab(url: Option<string>) | Dial(target: string) | ComposeSms(number: string, body: string)

  /** Everything one call produces: its payload, the browser action it
      performed, and the schedule entry it queued for appending. */
  datatype Outcome = Outcome(payload: Payload, effect: Option<Effect>, added: Option<ScheduleEntry>)

  function Arg(args: map<string, string>, key: string): Option<string> {
    if key in args then Some(args[key]) else None
  }

  /** An argument as a template literal renders it: a missing one reads "undefined". */
  function Show(args: map<string, string>, key: string): (r: string)
    ensures key in args ==> r == args[key]
    ensures key !in args ==> r == "undefined"
  {
    if key in args then args[key] else "undefined"
  }

  /** A `manageSchedule` call whose action is "add"; any other action,
      or none, lists. */
  predicate IsAddCall(fc: ToolCall) {
    fc.name == ManageSchedule && "action" in fc.args && fc.args["action"] == "add"
  }

  /** One pass of the dispatch loop's body. `fault` is the exception, if
      any, that the browser raises when a URL is handed to it; `listed` is
      the schedule the handler's closure sees; `clock` is the device's
      current date rendered as text. */
  function Execute(fc: ToolCall, fault: Option<string>, listed: seq<ScheduleEntry>, clock: string): (o: Outcome)
    ensures Lookup(fc.name).None? ==> o == Outcome(Status("ok"), None, None)
    ensures Lookup(fc.name).Some? ==> !o.payload.Status?
    ensures o.payload.Failed? <==> fault.Some? && Lookup(fc.name).Some? && Lookup(fc.name).value.OpensWindow()
    ensures o.payload.Failed? ==> o.payload.error == fault.value
    ensures o.effect.Some? <==> fault.None? && Lookup(fc.name).Some? && Lookup(fc.name).value.OpensWindow()
    ensures o.added.Some? <==> IsAddCall(fc)
    ensures o.added.Some? ==> o.added.value == NewEntry(fc.args) && o.payload.Result?
    ensures Lookup(fc.name) == Some(ManageScheduleTool) && !IsAddCall(fc) ==> o.payload == ScheduleList(listed)
    // the dispatch table, tool by tool
    ensures fc.name == OpenUrl && fault.None? ==>
      o == Outcome(Result("Opened " + Show(fc.args, "url")), Some(OpenTab(Arg(fc.args, "url"))), None)
    ensures fc.name == MakeCall && fault.None? ==>
      o == Outcome(Result("Calling " + Show(fc.args, "number")), Some(Dial("tel:" + Show(fc.args, "number"))), None)
    ensures fc.name == SendMessage && fault.None? ==>
      o == Outcome(Result("Message draft opened for " + Show(fc.args, "number")),
                   Some(ComposeSms(Show(fc.args, "number"), Show(fc.args, "message"))), None)
    ensures fc.name == GetDeviceTime ==> o == Outcome(DateTime(clock), None, None)
    ensures fc.name == GetContacts ==> o == Outcome(Contacts(MockContacts), None, None)
    ensures IsAddCall(fc) ==>
      o.payload == Result("Added " + NewEntry(fc.args).event + " at " + NewEntry(fc.args).time + " to schedule.")
  {
    match Lookup(fc.name)
    case None =>
      Outcome(Status("ok"), None, None)
    case Some(tool) =>
      if tool.OpensWindow() && fault.Some? then
        Outcome(Failed(fault.value), None, None)
      else
        match tool
        case OpenUrlTool =>
          Outcome(Result("Opened " + Show(fc.args, "url")), Some(OpenTab(Arg(fc.args, "url"))), None)
        case MakeCallTool =>
          Outcome(Result("Calling " + Show(fc.args, "number")), Some(Dial("tel:" + Show(fc.args, "number"))), None)
        case SendMessageTool =>
          var number := Show(fc.args, "number");
          Outcome(Result("Message draft opened for " + number), Some(ComposeSms(number, Show(fc.args, "message"))), None)
        case GetDeviceTimeTool =>
          Outcome(DateTime(clock), None, None)
        case GetContactsTool =>
          Outcome(Contacts(MockContacts), None, None)
        case ManageScheduleTool =>
          if IsAddCall(fc) then
            var e := NewEntry(fc.args);
            Outcome(Result("Added " + e.event + " at " + e.time + " to schedule."), None, Some(e))
          else
            Outcome(ScheduleList(listed), None, None)
  }

  function Respond(fc: ToolCall, fault: Option<string>, listed: seq<ScheduleEntry>, clock: string): FunctionResponse {
    FunctionResponse(fc.id, fc.name, Execute(fc, fault, listed, clock).payload)
  }

  /** The batch `handleToolCall` sends: the i-th response answers the i-th
      call, carries its id and name, and depends on no other call. */
  function Responses(calls: seq<ToolCall>, faults: seq<Option<string>>, listed: seq<ScheduleEntry>, clock: string): (rs: seq<FunctionResponse>)
    requires |faults| == |calls|
    ensures |rs| == |calls|
    decreases |calls|
  {
    if calls == [] then []
    else
      var n := |calls| - 1;
      Responses(calls[..n], faults[..n], listed, clock) + [Respond(calls[n], faults[n], listed, clock)]
  }

  /** The i-th response answers the i-th call, with that call's id and
      name, against the same captured schedule. */
  lemma {:induction false} ResponsesAt(calls: seq<ToolCall>, faults: seq<Option<string>>, listed: seq<ScheduleEntry>, clock: string, i: nat)
    requires |faults| == |calls| && i < |calls|
    ensures Responses(calls, faults, listed, clock)[i] == Respond(calls[i], faults[i], listed, clock)
    ensures Responses(calls, faults, listed, clock)[i].id == calls[i].id
    ensures Responses(calls, faults, listed, clock)[i].name == calls[i].name
    decreases |calls|
  {
    var n := |calls| - 1;
    if i < n {
      ResponsesAt(calls[..n], faults[..n], listed, clock, i);
    }
  }

  /** The entries the batch's `add` calls append to the schedule, in call order. */
  function AddedEntries(calls: seq<ToolCall>): (r: seq<ScheduleEntry>)
    ensures |r| <= |calls|
    decreases |calls|
  {
    if calls == [] then []
    else
      var n := |calls| - 1;
      AddedEntries(calls[..n]) + AddedBy(calls[n])
  }

  /** The browser actions the batch performs, in call order. */
  function Effects(calls: seq<ToolCall>, faults: seq<Option<string>>): (r: seq<Effect>)
    requires |faults| == |calls|
    ensures |r| <= |calls|
    decreases |calls|
  {
    if calls == [] then []
    else
      var n := |calls| - 1;
      Effects(calls[..n], faults[..n]) + EffectOf(calls[n], faults[n])
  }

  /** The browser action one call performs, if any (it does not depend on
      the schedule or the clock). */
  function EffectOf(fc: ToolCall, fault: Option<string>): seq<Effect> {
    var o := Execute(fc, fault, [], "");
    if o.effect.Some? then [o.effect.value] else []
  }

  /** The schedule entry one call appends, if any. */
  function AddedBy(fc: ToolCall): seq<ScheduleEntry> {
    if IsAddCall(fc) then [NewEntry(fc.args)] else []
  }

  /** The "Executing: <name>" log entries, one per call in call order. */
  function ExecutingLogs(calls: seq<ToolCall>, at: int): (r: seq<LogEntry>)
    ensures |r| == |calls|
    ensures forall i :: 0 <= i < |calls| ==> r[i] == LogEntry(System, "Executing: " + calls[i].name, at)
    decreases |calls|
  {
    if calls == [] then []
    else
      var n := |calls| - 1;
      ExecutingLogs(calls[..n], at) + [LogEntry(System, "Executing: " + calls[n].name, at)]
  }

  /** One more call extends each of the batch's products by that call's own;
      its response is computed against the schedule as the earlier calls
      left it. */
  lemma BatchStep(calls: seq<ToolCall>, faults: seq<Option<string>>, schedule: seq<ScheduleEntry>, clock: string, at: int, prev: seq<LogEntry>, i: nat)
    requires |faults| == |calls| && i < |calls|
    ensures ResponsesLive(calls[..i + 1], faults[..i + 1], schedule, clock)
      == ResponsesLive(calls[..i], faults[..i], schedule, clock) + [Respond(calls[i], faults[i], schedule + AddedEntries(calls[..i]), clock)]
    ensures AddedEntries(calls[..i + 1]) == AddedEntries(calls[..i]) + AddedBy(calls[i])
    ensures Effects(calls[..i + 1], faults[..i + 1]) == Effects(calls[..i], faults[..i]) + EffectOf(calls[i], faults[i])
    ensures AddLogs(prev, ExecutingLogs(calls[..i + 1], at))
      == AddLog(AddLogs(prev, ExecutingLogs(calls[..i], at)), LogEntry(System, "Executing: " + calls[i].name, at))
  {
    assert calls[..i + 1][..i] == calls[..i] && faults[..i + 1][..i] == faults[..i];
    ResponsesLiveLast(calls[..i + 1], faults[..i + 1], schedule, clock);
    var es := ExecutingLogs(calls[..i + 1], at);
    assert es[..|es| - 1] == ExecutingLogs(calls[..i], at);
  }

  /** Every `add` call in the batch contributes its entry to the schedule. */
  lemma {:induction false} AddedEntriesHas(calls: seq<ToolCall>, i: nat)
    requires i < |calls| && IsAddCall(calls[i])
    ensures NewEntry(calls[i].args) in AddedEntries(calls)
    decreases |calls|
  {
    var n := |calls| - 1;
    assert AddedEntries(calls) == AddedEntries(calls[..n]) + AddedBy(calls[n]);
    if i < n {
      assert calls[..n][i] == calls[i];
      AddedEntriesHas(calls[..n], i);
    } else {
      assert AddedBy(calls[n]) == [NewEntry(calls[i].args)];
    }
  }

  /** A batch without `add` calls leaves the schedule alone. */
  lemma {:induction false} AddedEntriesNone(calls: seq<ToolCall>)
    requires forall i :: 0 <= i < |calls| ==> !IsAddCall(calls[i])
    ensures AddedEntries(calls) == []
    decreases |calls|
  {
    if calls != [] {
      AddedEntriesNone(calls[..|calls| - 1]);
    }
  }

  /** As written, a "list" answers with the schedule its closure captured
      when the session started, whatever `add` calls came before it: in the
      same batch, and in any later batch the same handler answers. */
  lemma StaleListMissesAdd(clock: string)
    ensures var add := ToolCall("1", ManageSchedule, map["action" := "add", "event" := "Standup", "time" := "9:00 AM"]);
            var list := ToolCall("2", ManageSchedule, map["action" := "list"]);
            var rs := Responses([add, list], [None, None], InitialSchedule, clock);
            var later := Responses([list], [None], InitialSchedule, clock);
            AddedEntries([add, list]) == [ScheduleEntry("9:00 AM", "Standup")] &&
            rs[1].response == ScheduleList(InitialSchedule) &&
            ScheduleEntry("9:00 AM", "Standup") !in rs[1].response.schedule &&
            later[0].response == ScheduleList(InitialSchedule)
  {
    var add := ToolCall("1", ManageSchedule, map["action" := "add", "event" := "Standup", "time" := "9:00 AM"]);
    var list := ToolCall("2", ManageSchedule, map["action" := "list"]);
    assert [add, list][..1] == [add];
    assert [add][..0] == [];
    assert !IsAddCall(list);
  }

  // ---------------------------------------------------------- corrected

  /** The batch with "list" reading the live schedule: the session's
      schedule followed by every entry added earlier in the batch. */
  function ResponsesLive(calls: seq<ToolCall>, faults: seq<Option<string>>, schedule: seq<ScheduleEntry>, clock: string): (rs: seq<FunctionResponse>)
    requires |faults| == |calls|
    ensures |rs| == |calls|
    decreases |calls|
  {
    if calls == [] then []
    else
      var n := |calls| - 1;
      ResponsesLive(calls[..n], faults[..n], schedule, clock)
        + [Respond(calls[n], faults[n], schedule + AddedEntries(calls[..n]), clock)]
  }

  lemma ResponsesLiveLast(calls: seq<ToolCall>, faults: seq<Option<string>>, schedule: seq<ScheduleEntry>, clock: string)
    requires |faults| == |calls| && calls != []
    ensures var n := |calls| - 1;
      ResponsesLive(calls, faults, schedule, clock)
        == ResponsesLive(calls[..n], faults[..n], schedule, clock) + [Respond(calls[n], faults[n], schedule + AddedEntries(calls[..n]), clock)]
  {
  }

  /** Call `i` of the batch is answered against the session's schedule
      followed by every entry the calls before it added. */
  lemma {:induction false} ResponsesLiveAt(calls: seq<ToolCall>, faults: seq<Option<string>>, schedule: seq<ScheduleEntry>, clock: string, i: nat)
    requires |faults| == |calls| && i < |calls|
    ensures ResponsesLive(calls, faults, schedule, clock)[i] == Respond(calls[i], faults[i], schedule + AddedEntries(calls[..i]), clock)
    ensures ResponsesLive(calls, faults, schedule, clock)[i].id == calls[i].id
    ensures ResponsesLive(calls, faults, schedule, clock)[i].name == calls[i].name
    decreases |calls|
  {
    var n := |calls| - 1;
    ResponsesLiveLast(calls, faults, schedule, clock);
    if i < n {
      ResponsesLiveAt(calls[..n], faults[..n], schedule, clock, i);
      assert calls[..n][..i] == calls[..i];
    }
  }

  /** A failing call costs only its own response: the batch keeps its
      length, the failing entry carries the error, and every other entry
      is exactly what it would have been had that call not failed. */
  lemma FailureIsolated(calls: seq<ToolCall>, faults: seq<Option<string>>, schedule: seq<ScheduleEntry>, clock: string, k: nat, msg: string)
    requires |faults| == |calls| && k < |calls| && calls[k].name in WindowTools
    ensures |ResponsesLive(calls, faults[k := Some(msg)], schedule, clock)| == |calls|
    ensures ResponsesLive(calls, faults[k := Some(msg)], schedule, clock)[k] == FunctionResponse(calls[k].id, calls[k].name, Failed(msg))
    ensures forall j :: 0 <= j < |calls| && j != k ==>
      ResponsesLive(calls, faults[k := Some(msg)], schedule, clock)[j] == ResponsesLive(calls, faults, schedule, clock)[j]
  {
    LookupMatchesSchema(calls[k].name);
    var faulty := faults[k := Some(msg)];
    ResponsesLiveAt(calls, faulty, schedule, clock, k);
    forall j | 0 <= j < |calls| && j != k
      ensures ResponsesLive(calls, faulty, schedule, clock)[j] == ResponsesLive(calls, faults, schedule, clock)[j]
    {
      ResponsesLiveAt(calls, faulty, schedule, clock, j);
      ResponsesLiveAt(calls, faults, schedule, clock, j);
    }
  }

  /** With the live schedule, a "list" sees every entry added before it. */
  lemma LiveListSeesEarlierAdd(calls: seq<ToolCall>, faults: seq<Option<string>>, schedule: seq<ScheduleEntry>, clock: string, i: nat, j: nat)
    requires |faults| == |calls| && i < j < |calls|
    requires IsAddCall(calls[i]) && Lookup(calls[j].name) == Some(ManageScheduleTool) && !IsAddCall(calls[j])
    ensures ResponsesLive(calls, faults, schedule, clock)[j].response.ScheduleList?
    ensures NewEntry(calls[i].args) in ResponsesLive(calls, faults, schedule, clock)[j].response.schedule
  {
    ResponsesLiveAt(calls, faults, schedule, clock, j);
    assert calls[..j][i] == calls[i];
    AddedEntriesHas(calls[..j], i);
  }

  /** An `add` followed by a "list" lists the new entry exactly once more
      than the schedule held it before. */
  lemma AddThenListLive(schedule: seq<ScheduleEntry>, add: ToolCall, list: ToolCall, faults: seq<Option<string>>, clock: string)
    requires |faults| == 2 && IsAddCall(add) && Lookup(list.name) == Some(ManageScheduleTool) && !IsAddCall(list)
    ensures ResponsesLive([add, list], faults, schedule, clock)[1].response == ScheduleList(schedule + [NewEntry(add.args)])
    ensures multiset(ResponsesLive([add, list], faults, schedule, clock)[1].response.schedule)[NewEntry(add.args)]
      == multiset(schedule)[NewEntry(add.args)] + 1
  {
    ResponsesLiveAt([add, list], faults, schedule, clock, 1);
    assert [add, list][..1] == [add];
    assert [add][..0] == [];
  }
}
