/** The fake request service: the shared event budget, the raw request cache,
    the event bus (as the log of every emit) and the pending stream timers,
    with the summary batches and the detail lookup that act on them. Each
    timer callback is a method called explicitly; the delays are not modelled. */
module Service {
  import opened Records
  import opened Processors
  import opened Cache
  import opened Generation
  import opened Events

  /** How a callback ends: normally, or by throwing. */
  datatype Outcome = Pass | Fail(error: Error)

  /** Base offsets of the three summary channels, in seconds from now: more
      than a day ago, more than ten seconds ago, and now. */
  const LocalOffset: int := 25 * 60 * 60 * -1
  const RemoteOffset: int := 10 * -1
  const StreamOffset: int := 0

  /** The random draws of a batch of `count` records: one backward step in
      [30, 300] and one synthesised record per record. */
  predicate DrawsFit(count: nat, steps: seq<int>, drawn: seq<Drawn>) {
    |steps| == count && |drawn| == count && StepsInRange(steps)
  }

  /** `s` without its element at position k. */
  function RemoveAt(s: seq<nat>, k: nat): (r: seq<nat>)
    requires k < |s|
    ensures |r| == |s| - 1
  {
    s[..k] + s[k + 1..]
  }

  class FakeService {
    /** The event budget, drawn once from integerRange(25, 35). */
    const maxEvents: int
    /** Events still left in the budget; it goes below zero when a batch overshoots. */
    var leftEvents: int
    /** The raw request cache, by record id. */
    var cache: map<Id, RawRequest>
    /** Every emit on the event bus, in order. */
    var log: seq<Event>
    /** The position argument of every stream timer that is set and has not fired. */
    var streamTimers: seq<nat>
    /** Every record generated so far, in generation order. */
    ghost var history: seq<RawRequest>

    /** The counter records how many records the batches generated, and the
        cache holds exactly the records generated, each under its id, the last
        one winning. */
    ghost predicate Valid()
      reads this
    {
      && 25 <= maxEvents <= 35
      && maxEvents - leftEvents == |history|
      && cache == Stored(map[], history)
    }

    constructor(maxEvents: int)
      requires 25 <= maxEvents <= 35
      ensures Valid()
      ensures this.maxEvents == maxEvents && leftEvents == maxEvents
      ensures cache == map[] && log == [] && streamTimers == [] && history == []
    {
      this.maxEvents := maxEvents;
      leftEvents := maxEvents;
      cache := map[];
      log := [];
      streamTimers := [];
      history := [];
    }

    /** cacheResults: stores every record of the batch under its own id. */
    method CacheResults(rawResults: seq<RawRequest>)
      modifies this`cache
      ensures cache == Stored(old(cache), rawResults)
    {
      var i := 0;
      while i < |rawResults|
        invariant 0 <= i <= |rawResults|
        invariant Stored(cache, rawResults[i..]) == Stored(old(cache), rawResults)
      {
        assert rawResults[i..][0] == rawResults[i] && rawResults[i..][1..] == rawResults[i + 1..];
        var rawResult := rawResults[i];
        cache := cache[rawResult.id := rawResult];
        i := i + 1;
      }
      assert rawResults[i..] == [];
    }

    /** publishResults: applies the processor and emits its result on the
        batch's summary topic; a processor that throws emits nothing. */
    method PublishResults(rawResults: seq<RawRequest>, action: Processor, messageType: string,
                          messageSource: string, parse: Parser) returns (outcome: Outcome)
      modifies this`log
      ensures match Published(action, rawResults, parse)
              case Ok(p) => outcome == Pass && log == old(log) + [Event(SummaryTopic(messageType, messageSource), p)]
              case Err(e) => outcome == Fail(e) && log == old(log)
    {
      var results: EventPayload;
      match action {
        case RequestsSummaryAction =>
          var view := RequestsSummary(rawResults, parse);
          if view.Err? {
            return Fail(view.error);
          }
          results := RequestsPayload(view.value);
        case MessagesSummaryAction =>
          var messages := MessagesSummary(rawResults);
          results := MessagesPayload(messages);
      }
      log := log + [Event(SummaryTopic(messageType, messageSource), results)];
      outcome := Pass;
    }

    /** batch: charges the batch to the budget, generates its records walking
        back from `offset`, caches them, and publishes them. */
    method Batch(count: nat, messageType: string, messageSource: string, offset: int, action: Processor,
                 steps: seq<int>, drawn: seq<Drawn>, parse: Parser) returns (outcome: Outcome)
      requires Valid()
      requires DrawsFit(count, steps, drawn)
      modifies this`leftEvents, this`cache, this`log, this`history
      ensures Valid()
      ensures leftEvents == old(leftEvents) - count
      ensures history == old(history) + Stamped(offset, steps, drawn)
      ensures cache == Stored(old(cache), Stamped(offset, steps, drawn))
      ensures match Published(action, Stamped(offset, steps, drawn), parse)
              case Ok(p) => outcome == Pass && log == old(log) + [Event(SummaryTopic(messageType, messageSource), p)]
              case Err(e) => outcome == Fail(e) && log == old(log)
    {
      leftEvents := leftEvents - count;
      var rawResults := GenerateResults(count, offset, steps, drawn);
      CacheResults(rawResults);
      StoredAppend(map[], history, rawResults);
      history := history + rawResults;
      outcome := PublishResults(rawResults, action, messageType, messageSource, parse);
    }

    /** generate.local: one batch of requests from more than a day ago,
        published on data.request.summary.found.local. */
    method GenerateLocal(count: nat, steps: seq<int>, drawn: seq<Drawn>, parse: Parser) returns (outcome: Outcome)
      requires Valid()
      requires DrawsFit(count, steps, drawn)
      modifies this`leftEvents, this`cache, this`log, this`history
      ensures Valid()
      ensures leftEvents == old(leftEvents) - count
      ensures history == old(history) + Stamped(LocalOffset, steps, drawn)
      ensures cache == Stored(old(cache), Stamped(LocalOffset, steps, drawn))
      ensures match RequestsSummaryView(Stamped(LocalOffset, steps, drawn), parse)
              case Ok(v) => outcome == Pass && log == old(log) + [Event("data.request.summary.found.local", RequestsPayload(v))]
              case Err(e) => outcome == Fail(e) && log == old(log)
    {
      assert SummaryTopic("request", "local") == "data.request.summary.found.local";
      outcome := Batch(count, "request", "local", LocalOffset, RequestsSummaryAction, steps, drawn, parse);
    }

    /** generate.remote: one batch of messages from more than ten seconds ago,
        published on data.message.summary.found.remote. */
    method GenerateRemote(count: nat, steps: seq<int>, drawn: seq<Drawn>)
      requires Valid()
      requires DrawsFit(count, steps, drawn)
      modifies this`leftEvents, this`cache, this`log, this`history
      ensures Valid()
      ensures leftEvents == old(leftEvents) - count
      ensures history == old(history) + Stamped(RemoteOffset, steps, drawn)
      ensures cache == Stored(old(cache), Stamped(RemoteOffset, steps, drawn))
      ensures log == old(log) + [Event("data.message.summary.found.remote",
                                       MessagesPayload(MessagesSummaryList(Stamped(RemoteOffset, steps, drawn))))]
    {
      var parse: Parser := (s: string) => None;  // messages.summary parses nothing
      assert SummaryTopic("message", "remote") == "data.message.summary.found.remote";
      var _ := Batch(count, "message", "remote", RemoteOffset, MessagesSummaryAction, steps, drawn, parse);
    }

    /** generate.stream: a batch of one or two messages from now, published on
        data.message.summary.found.stream, then a timer for the next tick. */
    method GenerateStream(position: nat, draw: int, steps: seq<int>, drawn: seq<Drawn>)
      requires Valid()
      requires 0 <= draw <= 100 && DrawsFit(StreamCount(draw), steps, drawn)
      modifies this`leftEvents, this`cache, this`log, this`history, this`streamTimers
      ensures Valid()
      ensures leftEvents == old(leftEvents) - StreamCount(draw)
      ensures history == old(history) + Stamped(StreamOffset, steps, drawn)
      ensures cache == Stored(old(cache), Stamped(StreamOffset, steps, drawn))
      ensures log == old(log) + [Event("data.message.summary.found.stream",
                                       MessagesPayload(MessagesSummaryList(Stamped(StreamOffset, steps, drawn))))]
      ensures streamTimers == old(streamTimers) + [position + StreamCount(draw)]
    {
      var count := StreamCount(draw);
      var parse: Parser := (s: string) => None;  // messages.summary parses nothing
      assert SummaryTopic("message", "stream") == "data.message.summary.found.stream";
      var _ := Batch(count, "message", "stream", StreamOffset, MessagesSummaryAction, steps, drawn, parse);
      streamTimers := streamTimers + [position + count];
    }

    /** The callback of the stream timer at position k: it runs the next tick
        only while events are left, so the stream stops for good once the
        budget is spent. Each firing lowers the positive part of leftEvents, or
        else the number of pending stream timers, so firing stream timers alone
        comes to an end. */
    method StreamTimerFired(k: nat, draw: int, steps: seq<int>, drawn: seq<Drawn>)
      requires Valid()
      requires k < |streamTimers|
      requires 0 <= draw <= 100 && DrawsFit(StreamCount(draw), steps, drawn)
      modifies this`leftEvents, this`cache, this`log, this`history, this`streamTimers
      ensures Valid()
      ensures old(leftEvents) <= 0 ==>
                && leftEvents == old(leftEvents)
                && cache == old(cache) && log == old(log) && history == old(history)
                && streamTimers == RemoveAt(old(streamTimers), k)
      ensures old(leftEvents) > 0 ==>
                && leftEvents == old(leftEvents) - StreamCount(draw)
                && leftEvents >= -1
                && history == old(history) + Stamped(StreamOffset, steps, drawn)
                && cache == Stored(old(cache), Stamped(StreamOffset, steps, drawn))
                && log == old(log) + [Event("data.message.summary.found.stream",
                                            MessagesPayload(MessagesSummaryList(Stamped(StreamOffset, steps, drawn))))]
                && streamTimers == RemoveAt(old(streamTimers), k) + [old(streamTimers)[k] + StreamCount(draw)]
      ensures old(leftEvents) > 0 ==> leftEvents < old(leftEvents) && |streamTimers| == |old(streamTimers)|
      ensures old(leftEvents) <= 0 ==> |streamTimers| == |old(streamTimers)| - 1
    {
      var position := streamTimers[k];
      streamTimers := RemoveAt(streamTimers, k);
      if leftEvents > 0 {
        GenerateStream(position, draw, steps, drawn);
      }
    }

    /** generate.remote of the details: publishes the messages of the cached
        record on data.message.detail.found.remote, or throws for an id that
        no summary produced. The lookup answers with the messages of the last
        record generated under the id. */
    method DetailRemote(id: Id) returns (outcome: Outcome)
      requires Valid()
      modifies this`log
      ensures match Lookup(cache, id)
              case Ok(ms) => outcome == Pass && log == old(log) + [Event("data.message.detail.found.remote", MessagesPayload(ms))]
              case Err(e) => outcome == Fail(e) && log == old(log)
      ensures forall j :: IsLatest(history, j, id) ==>
                outcome == Pass && log == old(log) + [Event("data.message.detail.found.remote", MessagesPayload(history[j].messages))]
      ensures NoneCarries(history, id) ==> outcome == Fail(UnknownDetail(id)) && log == old(log)
    {
      assert DetailTopic("message", "remote") == "data.message.detail.found.remote";
      var found := Lookup(cache, id);
      LookupAfterStore(map[], history, id);
      if found.Ok? {
        log := log + [Event(DetailTopic("message", "remote"), MessagesPayload(found.value))];
        outcome := Pass;
      } else {
        outcome := Fail(found.error);
      }
    }
  }
}
