/** The event bus side of the service: the topics it publishes on and the
    payloads it publishes. */
module Events {
  import opened Records
  import opened Processors

  /** What a published event carries: a requests view or a list of messages. */
  datatype EventPayload = RequestsPayload(view: RequestsView) | MessagesPayload(messages: seq<Message>)

  /** One emit on the bus: a topic and its payload. */
  datatype Event = Event(topic: string, payload: EventPayload)

  /** The processor a batch hands its records to before publishing. */
  datatype Processor = RequestsSummaryAction | MessagesSummaryAction

  /** What a batch publishes for its records, or the error that stops it. */
  function Published(action: Processor, raws: seq<RawRequest>, parse: Parser): (r: Result<EventPayload>)
    ensures action.MessagesSummaryAction? ==> r == Ok(MessagesPayload(MessagesSummaryList(raws)))
    ensures action.RequestsSummaryAction? && r.Ok? ==>
              r.value.RequestsPayload? && Ok(r.value.view) == RequestsSummaryView(raws, parse)
    ensures action.RequestsSummaryAction? && r.Err? ==> RequestsSummaryView(raws, parse) == Err(r.error)
  {
    match action
    case RequestsSummaryAction =>
      (match RequestsSummaryView(raws, parse)
       case Ok(view) => Ok(RequestsPayload(view))
       case Err(e) => Err(e))
    case MessagesSummaryAction => Ok(MessagesPayload(MessagesSummaryList(raws)))
  }

  /** A messages batch publishes exactly the messages of its records that carry
      indices or an abstract. */
  lemma PublishedMessages(raws: seq<RawRequest>, parse: Parser)
    ensures Published(MessagesSummaryAction, raws, parse).Ok?
    ensures Published(MessagesSummaryAction, raws, parse).value.MessagesPayload?
    ensures forall m :: m in Published(MessagesSummaryAction, raws, parse).value.messages <==>
              Qualifies(m) && exists i :: 0 <= i < |raws| && m in raws[i].messages
  {
    MessagesSummaryMembers(raws);
  }

  /** A requests batch publishes only when every payload it parses is valid,
      and then publishes the records' requests in order as new and affected
      requests, nothing as updated, each message hydrated from the record's;
      otherwise it stops with MalformedPayload. */
  lemma PublishedRequests(raws: seq<RawRequest>, parse: Parser)
    ensures Published(RequestsSummaryAction, raws, parse).Ok? <==> AllPayloadsParse(raws, parse)
    ensures Published(RequestsSummaryAction, raws, parse).Err? ==>
              Published(RequestsSummaryAction, raws, parse).error == MalformedPayload
    ensures Published(RequestsSummaryAction, raws, parse).Ok? ==>
              && Published(RequestsSummaryAction, raws, parse).value.RequestsPayload?
              && var v := Published(RequestsSummaryAction, raws, parse).value.view;
              && v.newRequests == v.affectedRequests
              && v.updatedRequests == []
              && |v.newRequests| == |raws|
              && forall i :: 0 <= i < |raws| ==>
                   && v.newRequests[i].fields == raws[i].request.fields
                   && |v.newRequests[i].messages| == |raws[i].request.messages|
                   && forall j :: 0 <= j < |raws[i].request.messages| ==>
                        HydratedFrom(v.newRequests[i].messages[j], raws[i].request.messages[j], parse)
  {
    RequestsSummaryHydrates(raws, parse);
  }

  /** The topic of a summary batch: 'data.' + type + '.summary.found.' + source. */
  function SummaryTopic(messageType: string, messageSource: string): string
  {
    "data." + messageType + ".summary.found." + messageSource
  }

  /** The topic of a detail: 'data.' + type + '.detail.found.' + source. */
  function DetailTopic(messageType: string, messageSource: string): string
  {
    "data." + messageType + ".detail.found." + messageSource
  }

  /** For types without a dot, a summary topic names its type and source: two
      summary topics are equal exactly for the same type and source. */
  lemma SummaryTopicInjective(t1: string, s1: string, t2: string, s2: string)
    requires '.' !in t1 && '.' !in t2
    ensures SummaryTopic(t1, s1) == SummaryTopic(t2, s2) <==> t1 == t2 && s1 == s2
  {
    var a, b := SummaryTopic(t1, s1), SummaryTopic(t2, s2);
    assert forall k :: 0 <= k < |t1| ==> a[5 + k] == t1[k];
    assert forall k :: 0 <= k < |t2| ==> b[5 + k] == t2[k];
    assert a[5 + |t1|] == '.' && b[5 + |t2|] == '.';
    if |t1| < |t2| {
      assert a[5 + |t1|] != b[5 + |t1|];
    } else if |t2| < |t1| {
      assert a[5 + |t2|] != b[5 + |t2|];
    } else if t1 != t2 {
      var k :| 0 <= k < |t1| && t1[k] != t2[k];
      assert a[5 + k] != b[5 + k];
    } else if |s1| != |s2| {
      assert |a| != |b|;
    } else if s1 != s2 {
      var k :| 0 <= k < |s1| && s1[k] != s2[k];
      assert a[20 + |t1| + k] == s1[k] && b[20 + |t2| + k] == s2[k];
    }
  }

  /** For types without a dot, no summary topic is a detail topic. */
  lemma SummaryAndDetailTopicsDiffer(t1: string, s1: string, t2: string, s2: string)
    requires '.' !in t1 && '.' !in t2
    ensures SummaryTopic(t1, s1) != DetailTopic(t2, s2)
  {
    var a, b := SummaryTopic(t1, s1), DetailTopic(t2, s2);
    assert forall k :: 0 <= k < |t1| ==> a[5 + k] == t1[k];
    assert forall k :: 0 <= k < |t2| ==> b[5 + k] == t2[k];
    assert a[5 + |t1|] == '.' && b[5 + |t2|] == '.';
    if |t1| < |t2| {
      assert a[5 + |t1|] != b[5 + |t1|];
    } else if |t2| < |t1| {
      assert a[5 + |t2|] != b[5 + |t2|];
    } else {
      assert a[6 + |t1|] == 's' && b[6 + |t2|] == 'd';
    }
  }
}
