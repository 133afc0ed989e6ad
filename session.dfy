/** The session orchestrator of App.tsx: the component state (assistant
    state, start flag, log, feed, schedule) and the playback refs (time
    cursor, active sources), updated by one method per event. */
module VancixSession {
  import opened VancixTypes
  import opened BoundedLists
  import opened Dispatcher
  import opened ToolSchema
  import opened Playback

  /** Identifies one scheduled playback source (an `AudioBufferSourceNode`). */
  type SourceId = nat

  /** The step of `startSession`'s setup that throws (or rejects) inside its
      `try`. Opening the connection is not one: its promise is not awaited
      there, so a refused connection surfaces only through `onerror` or
      `onclose`. */
  datatype SetupStep = CreateClient | CreateAudioContexts | RequestMicrophone

  /** A response audio chunk: decoded to a buffer of some duration, or a
      payload the decoder rejects. */
  datatype AudioChunk = Decoded(duration: Seconds) | Undecodable

  datatype ServerContent = ServerContent(audio: Option<AudioChunk>, grounding: Option<seq<GroundingChunk>>)
  datatype ToolCallMessage = ToolCallMessage(functionCalls: Option<seq<ToolCall>>)
  /** An inbound server message; either part may be absent, or both present. */
  datatype Message = Message(toolCall: Option<ToolCallMessage>, serverContent: Option<ServerContent>)

  /** The calls of the message's tool-call batch (none when absent). */
  function CallsOf(msg: Message): seq<ToolCall> {
    if msg.toolCall.Some? && msg.toolCall.value.functionCalls.Some? then msg.toolCall.value.functionCalls.value else []
  }

  predicate HasCalls(msg: Message) {
    msg.toolCall.Some? && msg.toolCall.value.functionCalls.Some?
  }

  function AudioOf(msg: Message): Option<AudioChunk> {
    if msg.serverContent.Some? then msg.serverContent.value.audio else None
  }

  function GroundingOf(msg: Message): Option<seq<GroundingChunk>> {
    if msg.serverContent.Some? then msg.serverContent.value.grounding else None
  }

  /** Placements in timeline order, none overlapping the next, all ended by `cursor`. */
  ghost predicate Ordered(ps: seq<Placement>, cursor: Seconds) {
    (forall i, j :: 0 <= i < j < |ps| ==> End(ps[i]) <= ps[j].start) &&
    (forall i :: 0 <= i < |ps| ==> End(ps[i]) <= cursor)
  }

  class Session {
    var state: VancixState
    /** Whether the start button has been replaced by the stop button. */
    var hasStarted: bool
    /** How many times the microphone has been requested. */
    var micRequests: nat
    var logs: seq<LogEntry>
    var feed: seq<FeedItem>
    var schedule: seq<ScheduleEntry>
    /** `nextStartTimeRef`: where the next chunk may start. */
    var cursor: Seconds
    /** `sourcesRef`: the sources scheduled and not yet ended. */
    var active: set<SourceId>
    var nextSource: SourceId
    /** The tool-response batches sent over the transport, in order. */
    var sent: seq<seq<FunctionResponse>>
    /** The browser actions performed by tool handlers, in order. */
    var effects: seq<Effect>
    /** Where every source ever scheduled was placed; source `k` is `placements[k]`. */
    ghost var placements: seq<Placement>

    /** The command log and the grounding feed stay within their caps. */
    predicate Bounded()
      reads this`logs, this`feed
    {
      |logs| <= LogCap && |feed| <= FeedCap
    }

    /** Every source ever scheduled has an id below `nextSource`; the
        placements never overlap, and all of them end by the cursor. */
    ghost predicate Scheduled()
      reads this`nextSource, this`placements, this`active, this`cursor
    {
      nextSource == |placements| &&
      (forall s :: s in active ==> s < nextSource) &&
      Ordered(placements, cursor)
    }

    ghost predicate Valid()
      reads this`logs, this`feed, this`nextSource, this`placements, this`active, this`cursor
    {
      Bounded() && Scheduled()
    }

    constructor ()
      ensures Valid()
      ensures state == Idle && !hasStarted && micRequests == 0
      ensures logs == [] && feed == [] && schedule == InitialSchedule
      ensures cursor == 0.0 && active == {} && sent == [] && effects == []
    {
      state := Idle;
      hasStarted := false;
      micRequests := 0;
      logs := [];
      feed := [];
      schedule := InitialSchedule;
      cursor := 0.0;
      active := {};
      nextSource := 0;
      sent := [];
      effects := [];
      placements := [];
    }

    /** `addLog`. */
    method AddLogEntry(kind: LogKind, text: string, at: int)
      requires Bounded()
      modifies this`logs
      ensures Bounded()
      ensures logs == AddLog(old(logs), LogEntry(kind, text, at))
    {
      logs := AddLog(logs, LogEntry(kind, text, at));
    }

    /** `startSession`, offered only while the start button shows. Without
        an API key it does nothing (the alert is not modelled); otherwise
        it marks the session started and listening before the microphone
        is requested, and any setup step that throws ends in Error. */
    method StartSession(keyPresent: bool, failAt: Option<SetupStep>, at: int)
      requires Valid() && !hasStarted
      modifies this`hasStarted, this`state, this`micRequests, this`logs
      ensures Valid()
      ensures !keyPresent ==> !hasStarted && state == old(state) && micRequests == old(micRequests) && logs == old(logs)
      ensures keyPresent ==> hasStarted
      ensures keyPresent ==>
        micRequests == old(micRequests) + (if failAt.None? || failAt.value.RequestMicrophone? then 1 else 0)
      ensures keyPresent && failAt.None? ==> state == Listening && logs == old(logs)
      ensures keyPresent && failAt.Some? ==>
        state == Error && logs == AddLog(old(logs), LogEntry(System, "Initialization Failed", at))
    {
      if !keyPresent {
        return;
      }
      hasStarted := true;
      state := Listening;
      if failAt == Some(CreateClient) || failAt == Some(CreateAudioContexts) {
        AddLogEntry(System, "Initialization Failed", at);
        state := Error;
        return;
      }
      micRequests := micRequests + 1;
      if failAt == Some(RequestMicrophone) {
        AddLogEntry(System, "Initialization Failed", at);
        state := Error;
        return;
      }
    }

    /** The transport's `onopen` (the capture wiring it does is not modelled). */
    method OnOpen(at: int)
      requires Valid()
      modifies this`logs
      ensures Valid()
      ensures logs == AddLog(old(logs), LogEntry(System, "Vancix OS Online. Systems Nominal.", at))
    {
      AddLogEntry(System, "Vancix OS Online. Systems Nominal.", at);
    }

    /** One pass of `handleToolCall`'s loop: log the call, run its handler
        (an exception becomes an error payload), and build its response. */
    method DispatchOne(fc: ToolCall, fault: Option<string>, clock: string, at: int) returns (response: FunctionResponse)
      requires Bounded()
      modifies this`logs, this`schedule, this`effects
      ensures Bounded()
      ensures response == Respond(fc, fault, old(schedule), clock)
      ensures logs == AddLog(old(logs), LogEntry(System, "Executing: " + fc.name, at))
      ensures schedule == old(schedule) + AddedBy(fc)
      ensures effects == old(effects) + EffectOf(fc, fault)
    {
      AddLogEntry(System, "Executing: " + fc.name, at);
      var o := Execute(fc, fault, schedule, clock);
      if o.effect.Some? {
        effects := effects + [o.effect.value];
      }
      if o.added.Some? {
        schedule := AppendEntry(schedule, o.added.value);
      }
      response := FunctionResponse(fc.id, fc.name, o.payload);
    }

    /** Pass `i` of `handleToolCall`'s loop, in terms of the batch so far:
        when the log, schedule and browser actions reflect the first `i`
        calls, afterwards they reflect the first `i + 1`. */
    method DispatchNext(calls: seq<ToolCall>, faults: seq<Option<string>>, clock: string, at: int, i: nat,
                        ghost logs0: seq<LogEntry>, ghost schedule0: seq<ScheduleEntry>, ghost effects0: seq<Effect>)
      returns (response: FunctionResponse)
      requires Bounded() && |faults| == |calls| && i < |calls|
      requires logs == AddLogs(logs0, ExecutingLogs(calls[..i], at))
      requires schedule == schedule0 + AddedEntries(calls[..i])
      requires effects == effects0 + Effects(calls[..i], faults[..i])
      modifies this`logs, this`schedule, this`effects
      ensures Bounded()
      ensures ResponsesLive(calls[..i + 1], faults[..i + 1], schedule0, clock)
        == ResponsesLive(calls[..i], faults[..i], schedule0, clock) + [response]
      ensures logs == AddLogs(logs0, ExecutingLogs(calls[..i + 1], at))
      ensures schedule == schedule0 + AddedEntries(calls[..i + 1])
      ensures effects == effects0 + Effects(calls[..i + 1], faults[..i + 1])
    {
      BatchStep(calls, faults, schedule0, clock, at, logs0, i);
      ConcatAssoc(schedule0, AddedEntries(calls[..i]), AddedBy(calls[i]));
      ConcatAssoc(effects0, Effects(calls[..i], faults[..i]), EffectOf(calls[i], faults[i]));
      response := DispatchOne(calls[i], faults[i], clock, at);
    }

    /** `handleToolCall`'s loop: every call dispatched in order, its
        response collected. */
    method DispatchAll(calls: seq<ToolCall>, faults: seq<Option<string>>, clock: string, at: int)
      returns (responses: seq<FunctionResponse>)
      requires Bounded() && |faults| == |calls|
      modifies this`logs, this`schedule, this`effects
      ensures Bounded()
      ensures responses == ResponsesLive(calls, faults, old(schedule), clock)
      ensures schedule == old(schedule) + AddedEntries(calls)
      ensures effects == old(effects) + Effects(calls, faults)
      ensures logs == AddLogs(old(logs), ExecutingLogs(calls, at))
    {
      responses := [];
      assert calls[..0] == [] && faults[..0] == [];
      var i := 0;
      while i < |calls|
        invariant 0 <= i <= |calls|
        invariant Bounded()
        invariant responses == ResponsesLive(calls[..i], faults[..i], old(schedule), clock)
        invariant schedule == old(schedule) + AddedEntries(calls[..i])
        invariant effects == old(effects) + Effects(calls[..i], faults[..i])
        invariant logs == AddLogs(old(logs), ExecutingLogs(calls[..i], at))
      {
        var response := DispatchNext(calls, faults, clock, at, i, old(logs), old(schedule), old(effects));
        responses := responses + [response];
        i := i + 1;
      }
      assert calls[..i] == calls && faults[..i] == faults;
    }

    /** `handleToolCall`: dispatch every call in order, then send all the
        responses as one batch. */
    method HandleToolCall(calls: seq<ToolCall>, faults: seq<Option<string>>, clock: string, at: int)
      requires Valid() && |faults| == |calls|
      modifies this`logs, this`schedule, this`effects, this`sent
      ensures Valid()
      ensures sent == old(sent) + [ResponsesLive(calls, faults, old(schedule), clock)]
      ensures schedule == old(schedule) + AddedEntries(calls)
      ensures effects == old(effects) + Effects(calls, faults)
      ensures logs == AddLogs(old(logs), ExecutingLogs(calls, at))
    {
      var responses := DispatchAll(calls, faults, clock, at);
      sent := sent + [responses];
    }

    /** The audio part of `onmessage`: Speaking, the cursor moved up to the
        output clock, then (once decoded) the source placed at the cursor,
        the cursor moved past it and the source made active. A chunk that
        fails to decode stops the handler after the cursor moved. */
    method PlayChunk(audio: AudioChunk, now: Seconds) returns (source: Option<SourceId>)
      requires Valid()
      modifies this`state, this`cursor, this`active, this`nextSource, this`placements
      ensures Valid()
      ensures state == Speaking && cursor >= old(cursor)
      ensures audio.Undecodable? ==>
        source.None? && cursor == StartOf(old(cursor), now) && active == old(active) && placements == old(placements)
      ensures audio.Decoded? ==>
        source.Some? && source.value !in old(active) && active == old(active) + {source.value} &&
        placements == old(placements) + [Placement(StartOf(old(cursor), now), audio.duration)] &&
        placements[source.value].start == StartOf(old(cursor), now) &&
        cursor == StartOf(old(cursor), now) + audio.duration
    {
      state := Speaking;
      cursor := StartOf(cursor, now);
      match audio
      case Undecodable =>
        source := None;
      case Decoded(d) =>
        var id := nextSource;
        placements := placements + [Placement(cursor, d)];
        cursor := cursor + d;
        active := active + {id};
        nextSource := nextSource + 1;
        source := Some(id);
    }

    /** The tool-call part of `onmessage`: Thinking, and when the message
        carries function calls they are answered. */
    method OnToolCallMessage(tc: ToolCallMessage, faults: seq<Option<string>>, clock: string, at: int)
      requires Valid() && (tc.functionCalls.Some? ==> |faults| == |tc.functionCalls.value|)
      modifies this`state, this`logs, this`schedule, this`effects, this`sent
      ensures Valid()
      ensures state == Thinking
      ensures tc.functionCalls.None? ==>
        sent == old(sent) && schedule == old(schedule) && effects == old(effects) && logs == old(logs)
      ensures tc.functionCalls.Some? ==>
        var calls := tc.functionCalls.value;
        sent == old(sent) + [ResponsesLive(calls, faults, old(schedule), clock)] &&
        schedule == old(schedule) + AddedEntries(calls) &&
        effects == old(effects) + Effects(calls, faults) &&
        logs == AddLogs(old(logs), ExecutingLogs(calls, at))
    {
      state := Thinking;
      if tc.functionCalls.Some? {
        HandleToolCall(tc.functionCalls.value, faults, clock, at);
      }
    }

    /** The content part of `onmessage`: audio is played (see `PlayChunk`);
        then, unless decoding that audio failed, grounding links refresh the
        feed. */
    method OnServerContent(content: ServerContent, now: Seconds) returns (source: Option<SourceId>)
      requires Valid()
      modifies this`state, this`cursor, this`active, this`nextSource, this`placements, this`feed
      ensures Valid()
      ensures content.audio.None? ==>
        source.None? && state == old(state) && cursor == old(cursor) && active == old(active) &&
        placements == old(placements)
      ensures content.audio.Some? ==> state == Speaking
      ensures content.audio == Some(Undecodable) ==>
        source.None? && cursor == StartOf(old(cursor), now) && active == old(active) && feed == old(feed)
      ensures content.audio.Some? && content.audio.value.Decoded? ==>
        source.Some? && source.value !in old(active) && active == old(active) + {source.value} &&
        cursor == StartOf(old(cursor), now) + content.audio.value.duration
      ensures content.audio != Some(Undecodable) ==> feed == UpdateFeed(old(feed), content.grounding)
    {
      source := None;
      if content.audio.Some? {
        source := PlayChunk(content.audio.value, now);
        if source.None? {
          return;
        }
      }
      FeedBounded(feed, content.grounding);
      feed := UpdateFeed(feed, content.grounding);
    }

    /** `onmessage`: the tool-call part is handled first, then the content
        part, so audio in the same message leaves the state Speaking. */
    method OnMessage(msg: Message, faults: seq<Option<string>>, clock: string, at: int, now: Seconds)
      returns (source: Option<SourceId>)
      requires Valid() && |faults| == |CallsOf(msg)|
      modifies this`state, this`logs, this`schedule, this`effects, this`sent,
        this`cursor, this`active, this`nextSource, this`placements, this`feed
      ensures Valid()
      ensures state == if AudioOf(msg).Some? then Speaking else if msg.toolCall.Some? then Thinking else old(state)
      ensures sent == old(sent) + (if HasCalls(msg) then [ResponsesLive(CallsOf(msg), faults, old(schedule), clock)] else [])
      ensures HasCalls(msg) ==>
        schedule == old(schedule) + AddedEntries(CallsOf(msg)) &&
        effects == old(effects) + Effects(CallsOf(msg), faults) &&
        logs == AddLogs(old(logs), ExecutingLogs(CallsOf(msg), at))
      ensures !HasCalls(msg) ==> schedule == old(schedule) && effects == old(effects) && logs == old(logs)
      ensures msg.serverContent.None? || AudioOf(msg) == Some(Undecodable) ==> feed == old(feed)
      ensures msg.serverContent.Some? && AudioOf(msg) != Some(Undecodable) ==> feed == UpdateFeed(old(feed), GroundingOf(msg))
      ensures AudioOf(msg).None? ==> source.None? && cursor == old(cursor) && active == old(active)
      ensures AudioOf(msg) == Some(Undecodable) ==> source.None? && cursor == StartOf(old(cursor), now) && active == old(active)
      ensures AudioOf(msg).Some? && AudioOf(msg).value.Decoded? ==>
        source.Some? && source.value !in old(active) && active == old(active) + {source.value} &&
        cursor == StartOf(old(cursor), now) + AudioOf(msg).value.duration
    {
      source := None;
      if msg.toolCall.Some? {
        OnToolCallMessage(msg.toolCall.value, faults, clock, at);
      }
      if msg.serverContent.Some? {
        source := OnServerContent(msg.serverContent.value, now);
      }
    }

    /** A source's `onended`: it leaves the active set, and the state
        becomes Listening exactly when no source is left. */
    method OnEnded(id: SourceId)
      requires Valid()
      modifies this`active, this`state
      ensures Valid()
      ensures active == old(active) - {id}
      ensures state == if active == {} then Listening else old(state)
    {
      active := active - {id};
      if |active| == 0 {
        state := Listening;
      }
    }

    /** The transport's `onclose`: Idle, and the start button returns. */
    method OnClose(at: int)
      requires Valid()
      modifies this`logs, this`state, this`hasStarted
      ensures Valid()
      ensures logs == AddLog(old(logs), LogEntry(System, "Connection Closed", at))
      ensures state == Idle && !hasStarted
    {
      AddLogEntry(System, "Connection Closed", at);
      state := Idle;
      hasStarted := false;
    }

    /** The transport's `onerror`: Error, with the error's text logged. */
    method OnError(err: string, at: int)
      requires Valid()
      modifies this`logs, this`state
      ensures Valid()
      ensures logs == AddLog(old(logs), LogEntry(System, "Error: " + err, at))
      ensures state == Error
    {
      AddLogEntry(System, "Error: " + err, at);
      state := Error;
    }
  }

  function AudioMessage(duration: Seconds): Message {
    Message(None, Some(ServerContent(Some(Decoded(duration)), None)))
  }

  /** Two chunks: after the first ends the assistant is still Speaking;
      after the second it is Listening again. */
  method TwoChunksScenario() returns (afterFirst: VancixState, afterSecond: VancixState)
    ensures afterFirst == Speaking && afterSecond == Listening
  {
    var s := new Session();
    s.StartSession(true, None, 0);
    var a := s.OnMessage(AudioMessage(1.0), [], "", 1, 0.0);
    var b := s.OnMessage(AudioMessage(2.0), [], "", 2, 0.5);
    s.OnEnded(a.value);
    afterFirst := s.state;
    s.OnEnded(b.value);
    afterSecond := s.state;
  }

  /** Without an API key the session never leaves Idle, the start button
      stays, and the microphone is never requested. */
  method MissingKeyScenario() returns (state: VancixState, started: bool, micRequests: nat)
    ensures state == Idle && !started && micRequests == 0
  {
    var s := new Session();
    s.StartSession(false, None, 0);
    state, started, micRequests := s.state, s.hasStarted, s.micRequests;
  }

  /** A refused connection does not fail `startSession`: the session is
      started and Listening with nothing logged, and only the transport's
      `onerror` then reports it. */
  method ConnectRefusedScenario(err: string) returns (afterStart: VancixState, logged: seq<LogEntry>, afterError: VancixState, started: bool)
    ensures afterStart == Listening && logged == []
    ensures afterError == Error && started
  {
    var s := new Session();
    s.StartSession(true, None, 0);
    afterStart, logged := s.state, s.logs;
    s.OnError(err, 1);
    afterError, started := s.state, s.hasStarted;
  }

  /** Error does not absorb: audio arriving after a transport error sets
      Speaking, and the chunk's end sets Listening. */
  method ErrorNotAbsorbingScenario() returns (afterAudio: VancixState, afterEnd: VancixState)
    ensures afterAudio == Speaking && afterEnd == Listening
  {
    var s := new Session();
    s.StartSession(true, None, 0);
    s.OnError("network", 1);
    var a := s.OnMessage(AudioMessage(1.0), [], "", 2, 0.0);
    afterAudio := s.state;
    s.OnEnded(a.value);
    afterEnd := s.state;
  }

  /** An `add` followed by a "list" in one batch: the list shows the new
      entry after the initial one, and so does the schedule itself. */
  method LiveScheduleScenario(add: ToolCall, list: ToolCall) returns (listed: seq<ScheduleEntry>, current: seq<ScheduleEntry>)
    requires IsAddCall(add) && Lookup(list.name) == Some(ManageScheduleTool) && !IsAddCall(list)
    ensures listed == InitialSchedule + [NewEntry(add.args)]
    ensures current == listed
  {
    var s := new Session();
    s.StartSession(true, None, 0);
    s.OnToolCallMessage(ToolCallMessage(Some([add, list])), [None, None], "", 1);
    var batch := s.sent[|s.sent| - 1];
    assert batch == ResponsesLive([add, list], [None, None], InitialSchedule, "");
    AddThenListLive(InitialSchedule, add, list, [None, None], "");
    listed := batch[1].response.schedule;
    assert [add, list][..1] == [add] && [add][..0] == [];
    assert AddedEntries([add, list]) == AddedEntries([add]) + AddedBy(list);
    assert AddedEntries([add]) == AddedEntries([]) + AddedBy(add);
    current := s.schedule;
  }
}
