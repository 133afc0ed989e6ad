/** The pure state updaters of App.tsx: the capped command log, the
    grounding ("Intel Feed") list and the append-only schedule. */
module BoundedLists {
  import opened VancixTypes

  /** The command log keeps at most this many entries. */
  const LogCap: nat := 50
  /** The Intel Feed keeps at most this many links. */
  const FeedCap: nat := 5

  // ---------------------------------------------------------------- log

  /** `addLog`'s updater: the new entry goes to the front, the previous
      entries follow in their order, and the oldest is evicted past the cap. */
  function AddLog(prev: seq<LogEntry>, e: LogEntry): (r: seq<LogEntry>)
    ensures |r| == Min(|prev| + 1, LogCap)
    ensures r[0] == e
    ensures r[1..] == prev[..|r| - 1]
  {
    ([e] + prev)[..Min(|prev| + 1, LogCap)]
  }

  /** The log after `addLog` was applied to each of `es` in turn. */
  function AddLogs(prev: seq<LogEntry>, es: seq<LogEntry>): seq<LogEntry>
    decreases |es|
  {
    if es == [] then prev else AddLog(AddLogs(prev, es[..|es| - 1]), es[|es| - 1])
  }

  /** `s` back to front. */
  function Reversed<T>(s: seq<T>): (r: seq<T>)
    ensures |r| == |s|
    decreases |s|
  {
    if s == [] then [] else [s[|s| - 1]] + Reversed(s[..|s| - 1])
  }

  lemma {:induction false} ReversedAt<T>(s: seq<T>, k: nat)
    requires k < |s|
    ensures |Reversed(s)| == |s| && Reversed(s)[k] == s[|s| - 1 - k]
  {
    if k > 0 {
      ReversedAt(s[..|s| - 1], k - 1);
    }
  }

  /** After a run of log entries the log holds the newest first, followed by
      the older log, cut to the cap (the log never holds more than the cap). */
  lemma {:induction false} AddLogsNewestFirst(prev: seq<LogEntry>, es: seq<LogEntry>)
    requires |prev| <= LogCap
    ensures AddLogs(prev, es) == (Reversed(es) + prev)[..Min(|es| + |prev|, LogCap)]
    decreases |es|
  {
    if es != [] {
      var init, e := es[..|es| - 1], es[|es| - 1];
      AddLogsNewestFirst(prev, init);
      var mid := AddLogs(prev, init);
      assert Reversed(es) + prev == [e] + (Reversed(init) + prev);
      var n := Min(|es| + |prev|, LogCap);
      var m := Min(|init| + |prev|, LogCap);
      assert mid == (Reversed(init) + prev)[..m];
      assert AddLog(mid, e) == ([e] + mid)[..Min(|mid| + 1, LogCap)];
      assert |mid| == m && Min(m + 1, LogCap) == n;
      assert ([e] + mid)[..n] == ([e] + (Reversed(init) + prev))[..n];
      assert AddLogs(prev, es) == AddLog(mid, e);
    }
  }

  /** Pushing at least `LogCap` entries keeps exactly the `LogCap` most
      recent ones, most recent first, whatever the log held before. */
  lemma LogKeepsMostRecent(prev: seq<LogEntry>, es: seq<LogEntry>)
    requires |prev| <= LogCap
    requires |es| >= LogCap
    ensures |AddLogs(prev, es)| == LogCap
    ensures forall k :: 0 <= k < LogCap ==> AddLogs(prev, es)[k] == es[|es| - 1 - k]
  {
    AddLogsNewestFirst(prev, es);
    forall k | 0 <= k < LogCap
      ensures AddLogs(prev, es)[k] == es[|es| - 1 - k]
    {
      ReversedAt(es, k);
    }
  }

  // ------------------------------------------------------- grounding feed

  /** A web source cited by a grounding chunk; both fields may be absent. */
  datatype WebSource = WebSource(title: Option<string>, uri: Option<string>)
  /** One grounding chunk; chunks of other kinds carry no web source. */
  datatype GroundingChunk = GroundingChunk(web: Option<WebSource>)
  /** One Intel Feed link (the title is passed on even when absent). */
  datatype FeedItem = FeedItem(title: Option<string>, uri: string)

  /** A chunk passes `c.web?.uri` when it has a web source whose uri is a
      non-empty string. */
  predicate HasWebUri(c: GroundingChunk) {
    c.web.Some? && c.web.value.uri.Some? && c.web.value.uri.value != ""
  }

  function ToItem(c: GroundingChunk): FeedItem
    requires HasWebUri(c)
  {
    FeedItem(c.web.value.title, c.web.value.uri.value)
  }

  /** The links of the chunks that have a web uri, in chunk order. */
  function WebLinks(cs: seq<GroundingChunk>): (r: seq<FeedItem>)
    ensures |r| <= |cs|
    ensures forall it :: it in r ==> it.uri != ""
    decreases |cs|
  {
    if cs == [] then []
    else
      var rest := WebLinks(cs[..|cs| - 1]);
      var c := cs[|cs| - 1];
      if HasWebUri(c) then rest + [ToItem(c)] else rest
  }

  /** Filtering distributes over concatenation: links keep the chunks' order. */
  lemma {:induction false} WebLinksAppend(a: seq<GroundingChunk>, b: seq<GroundingChunk>)
    ensures WebLinks(a + b) == WebLinks(a) + WebLinks(b)
    decreases |b|
  {
    if b == [] {
      assert a + b == a;
    } else {
      var b' := b[..|b| - 1];
      assert (a + b)[..|a + b| - 1] == a + b';
      assert (a + b)[|a + b| - 1] == b[|b| - 1];
      WebLinksAppend(a, b');
    }
  }

  /** When every chunk has a web uri, each one becomes a link, in order. */
  lemma {:induction false} WebLinksAllKept(cs: seq<GroundingChunk>)
    requires forall i :: 0 <= i < |cs| ==> HasWebUri(cs[i])
    ensures |WebLinks(cs)| == |cs|
    ensures forall i :: 0 <= i < |cs| ==> WebLinks(cs)[i] == ToItem(cs[i])
    decreases |cs|
  {
    if cs != [] {
      WebLinksAllKept(cs[..|cs| - 1]);
    }
  }

  /** A chunk without a web uri contributes nothing. */
  lemma {:induction false} WebLinksNoneKept(cs: seq<GroundingChunk>)
    requires forall i :: 0 <= i < |cs| ==> !HasWebUri(cs[i])
    ensures WebLinks(cs) == []
    decreases |cs|
  {
    if cs != [] {
      WebLinksNoneKept(cs[..|cs| - 1]);
    }
  }

  /** The grounding part of the message handler: with no chunks (absent or
      an empty list) the feed is left alone; otherwise the new links go in
      front, in chunk order, and the feed is cut to `FeedCap`. */
  function UpdateFeed(prev: seq<FeedItem>, chunks: Option<seq<GroundingChunk>>): (r: seq<FeedItem>)
    ensures chunks.None? || chunks.value == [] ==> r == prev
    ensures chunks.Some? && chunks.value != [] ==>
      |r| == Min(|WebLinks(chunks.value)| + |prev|, FeedCap) &&
      r == (WebLinks(chunks.value) + prev)[..|r|]
  {
    if chunks.None? || chunks.value == [] then prev
    else
      var all := WebLinks(chunks.value) + prev;
      all[..Min(|all|, FeedCap)]
  }

  /** The feed never grows past the cap, and when the new links alone fill
      it, it holds the first `FeedCap` of them. */
  lemma FeedBounded(prev: seq<FeedItem>, chunks: Option<seq<GroundingChunk>>)
    requires |prev| <= FeedCap
    ensures |UpdateFeed(prev, chunks)| <= FeedCap
    ensures chunks.Some? && |WebLinks(chunks.value)| >= FeedCap ==>
      UpdateFeed(prev, chunks) == WebLinks(chunks.value)[..FeedCap]
  {
  }

  // ------------------------------------------------------------ schedule

  /** JavaScript `args[key] || dflt` on a string argument: a missing or
      empty argument yields the default. */
  function ArgOr(args: map<string, string>, key: string, dflt: string): (r: string)
    ensures key in args && args[key] != "" ==> r == args[key]
    ensures key !in args || args[key] == "" ==> r == dflt
  {
    if key in args && args[key] != "" then args[key] else dflt
  }

  /** The entry `manageSchedule` adds: the given time and event, with
      "TBD" and "Unknown Event" standing in for missing ones. */
  function NewEntry(args: map<string, string>): (e: ScheduleEntry)
    ensures e.time != "" && e.event != ""
    ensures "time" in args && args["time"] != "" ==> e.time == args["time"]
    ensures "event" in args && args["event"] != "" ==> e.event == args["event"]
  {
    ScheduleEntry(ArgOr(args, "time", "TBD"), ArgOr(args, "event", "Unknown Event"))
  }

  /** `setSchedule`'s updater: exactly one entry appended at the end,
      earlier entries untouched. */
  function AppendEntry(prev: seq<ScheduleEntry>, e: ScheduleEntry): (r: seq<ScheduleEntry>)
    ensures |r| == |prev| + 1 && r[..|prev|] == prev && r[|prev|] == e
    ensures multiset(r) == multiset(prev) + multiset{e}
  {
    prev + [e]
  }
}
