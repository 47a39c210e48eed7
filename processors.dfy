/** The request and message processors: they turn raw records into the
    "requests" view and the "messages" view that the service publishes. */
module Processors {
  import opened Records

  /** The requests view: new, updated and affected requests. */
  datatype RequestsView = RequestsView(
    newRequests: seq<Request>,
    updatedRequests: seq<Request>,
    affectedRequests: seq<Request>)

  // ---------------------------------------------------------------------------
  // Payload hydration (requests.summary)
  // ---------------------------------------------------------------------------

  /** The guard of hydration: the payload is present and is a non-empty string. */
  predicate Hydratable(p: Payload) {
    p.Text? && p.text != ""
  }

  /** True when every payload of `ms` that hydration would parse is valid JSON. */
  predicate MessagesParse(ms: seq<Message>, parse: Parser) {
    forall j :: 0 <= j < |ms| && Hydratable(ms[j].payload) ==> parse(ms[j].payload.text).Some?
  }

  /** Reference description of one hydrated message: `after` is `before` with a
      present, non-empty payload replaced by its parsed value and every other
      payload and every other field kept. */
  predicate HydratedFrom(after: Message, before: Message, parse: Parser) {
    && after.indices == before.indices
    && after.abstractInfo == before.abstractInfo
    && after.fields == before.fields
    && (Hydratable(before.payload) ==>
          parse(before.payload.text).Some? && after.payload == Parsed(parse(before.payload.text).value))
    && (!Hydratable(before.payload) ==> after.payload == before.payload)
  }

  /** Hydrates one message; None when JSON.parse rejects its payload. */
  function HydrateMessage(m: Message, parse: Parser): (r: Option<Message>)
    ensures r.Some? <==> (Hydratable(m.payload) ==> parse(m.payload.text).Some?)
    ensures r.Some? ==> HydratedFrom(r.value, m, parse)
  {
    if Hydratable(m.payload) then
      match parse(m.payload.text)
      case None => None
      case Some(v) => Some(m.(payload := Parsed(v)))
    else
      Some(m)
  }

  /** Hydrates the messages of a list in order, failing at the first bad payload. */
  function HydrateMessages(ms: seq<Message>, parse: Parser): Option<seq<Message>>
  {
    if ms == [] then Some([])
    else
      match HydrateMessage(ms[0], parse)
      case None => None
      case Some(m) =>
        match HydrateMessages(ms[1..], parse)
        case None => None
        case Some(rest) => Some([m] + rest)
  }

  /** Hydrates the messages of one request, keeping its other fields. */
  function HydrateRequest(r: Request, parse: Parser): Option<Request>
  {
    match HydrateMessages(r.messages, parse)
    case None => None
    case Some(ms) => Some(r.(messages := ms))
  }

  /** Hydrates a list of requests in order, failing at the first bad payload. */
  function HydrateRequests(rs: seq<Request>, parse: Parser): Option<seq<Request>>
  {
    if rs == [] then Some([])
    else
      match HydrateRequest(rs[0], parse)
      case None => None
      case Some(r) =>
        match HydrateRequests(rs[1..], parse)
        case None => None
        case Some(rest) => Some([r] + rest)
  }

  /** Hydrating a list succeeds exactly when every message hydrates, and then
      hydrates each message where it stands. */
  lemma {:induction false} HydrateMessagesAt(ms: seq<Message>, parse: Parser)
    ensures HydrateMessages(ms, parse).Some? <==> MessagesParse(ms, parse)
    ensures HydrateMessages(ms, parse).Some? ==>
              |HydrateMessages(ms, parse).value| == |ms| &&
              forall j :: 0 <= j < |ms| ==> HydrateMessage(ms[j], parse) == Some(HydrateMessages(ms, parse).value[j])
  {
    if ms != [] {
      HydrateMessagesAt(ms[1..], parse);
      assert forall j :: 1 <= j < |ms| ==> ms[j] == ms[1..][j - 1];
    }
  }

  /** Hydrating requests succeeds exactly when every request hydrates, and then
      hydrates each request where it stands. */
  lemma {:induction false} HydrateRequestsAt(rs: seq<Request>, parse: Parser)
    ensures HydrateRequests(rs, parse).Some? <==>
              forall i :: 0 <= i < |rs| ==> HydrateRequest(rs[i], parse).Some?
    ensures HydrateRequests(rs, parse).Some? ==>
              |HydrateRequests(rs, parse).value| == |rs| &&
              forall i :: 0 <= i < |rs| ==> HydrateRequest(rs[i], parse) == Some(HydrateRequests(rs, parse).value[i])
  {
    if rs != [] {
      HydrateRequestsAt(rs[1..], parse);
      assert forall i :: 1 <= i < |rs| ==> rs[i] == rs[1..][i - 1];
    }
  }

  // ---------------------------------------------------------------------------
  // requests.summary and requests.detail
  // ---------------------------------------------------------------------------

  /** The `request` field of each raw record, in order. */
  function RequestsOf(raws: seq<RawRequest>): (rs: seq<Request>)
    ensures |rs| == |raws|
    ensures forall i :: 0 <= i < |raws| ==> rs[i] == raws[i].request
  {
    if raws == [] then [] else [raws[0].request] + RequestsOf(raws[1..])
  }

  /** Every payload that requests.summary parses is valid JSON. */
  predicate AllPayloadsParse(raws: seq<RawRequest>, parse: Parser) {
    forall i :: 0 <= i < |raws| ==> MessagesParse(raws[i].request.messages, parse)
  }

  /** The value of requests.summary: the hydrated requests as both the new and
      the affected requests, no updated request; MalformedPayload when a
      payload does not parse. */
  function RequestsSummaryView(raws: seq<RawRequest>, parse: Parser): Result<RequestsView>
  {
    match HydrateRequests(RequestsOf(raws), parse)
    case None => Err(MalformedPayload)
    case Some(requests) => Ok(RequestsView(requests, [], requests))
  }

  /** requests.summary succeeds exactly when every payload it parses is valid;
      it then lists the request of every record in order, the same list as new
      and as affected requests and nothing as updated, and each message is its
      original with only a present, non-empty payload replaced by its parsed
      value. */
  lemma RequestsSummaryHydrates(raws: seq<RawRequest>, parse: Parser)
    ensures RequestsSummaryView(raws, parse).Ok? <==> AllPayloadsParse(raws, parse)
    ensures !RequestsSummaryView(raws, parse).Ok? ==> RequestsSummaryView(raws, parse) == Err(MalformedPayload)
    ensures RequestsSummaryView(raws, parse).Ok? ==>
              var v := RequestsSummaryView(raws, parse).value;
              && v.newRequests == v.affectedRequests
              && v.updatedRequests == []
              && |v.newRequests| == |raws|
              && forall i :: 0 <= i < |raws| ==>
                   && v.newRequests[i].fields == raws[i].request.fields
                   && |v.newRequests[i].messages| == |raws[i].request.messages|
                   && forall j :: 0 <= j < |raws[i].request.messages| ==>
                        HydratedFrom(v.newRequests[i].messages[j], raws[i].request.messages[j], parse)
  {
    var rs := RequestsOf(raws);
    HydrateRequestsAt(rs, parse);
    forall i | 0 <= i < |rs|
      ensures HydrateRequest(rs[i], parse).Some? <==> MessagesParse(raws[i].request.messages, parse)
      ensures HydrateRequest(rs[i], parse).Some? ==>
                var h := HydrateRequest(rs[i], parse).value;
                && h.fields == raws[i].request.fields
                && |h.messages| == |raws[i].request.messages|
                && forall j :: 0 <= j < |h.messages| ==> HydratedFrom(h.messages[j], raws[i].request.messages[j], parse)
    {
      HydrateMessagesAt(rs[i].messages, parse);
    }
  }

  /** requests.detail: the record's request as the only new and affected request. */
  function RequestsDetail(raw: RawRequest): (v: RequestsView)
    ensures v.newRequests == v.affectedRequests == [raw.request]
    ensures v.updatedRequests == []
  {
    RequestsView([raw.request], [], [raw.request])
  }

  /** For a record with nothing to hydrate, the detail view is the summary view
      of that record alone. */
  lemma RequestsDetailAsSummary(raw: RawRequest, parse: Parser)
    requires forall j :: 0 <= j < |raw.request.messages| ==> !Hydratable(raw.request.messages[j].payload)
    ensures RequestsSummaryView([raw], parse) == Ok(RequestsDetail(raw))
  {
    var r := raw.request;
    HydrateMessagesAt(r.messages, parse);
    var h := HydrateMessages(r.messages, parse).value;
    assert h == r.messages;
    assert HydrateRequest(r, parse) == Some(r);
    assert RequestsOf([raw]) == [r];
    assert HydrateRequests([r], parse) == Some([r]);
  }

  /** requests.summary: maps each record to its request and hydrates, in
      place, every present non-empty payload by JSON.parse. */
  method RequestsSummary(rawRequests: seq<RawRequest>, parse: Parser) returns (r: Result<RequestsView>)
    ensures r == RequestsSummaryView(rawRequests, parse)
  {
    var rs := RequestsOf(rawRequests);
    var requests: seq<Request> := [];
    var i := 0;
    while i < |rs|
      invariant 0 <= i <= |rs|
      invariant |requests| == i
      invariant forall k :: 0 <= k < i ==> HydrateRequest(rs[k], parse) == Some(requests[k])
    {
      var request := rs[i];
      var messages: seq<Message> := [];
      var j := 0;
      while j < |request.messages|
        invariant 0 <= j <= |request.messages|
        invariant |messages| == j
        invariant forall k :: 0 <= k < j ==> HydrateMessage(request.messages[k], parse) == Some(messages[k])
      {
        var message := request.messages[j];
        if Hydratable(message.payload) {
          var parsed := parse(message.payload.text);
          if parsed.None? {
            // JSON.parse throws, and the error leaves the processor
            HydrateMessagesAt(request.messages, parse);
            HydrateRequestsAt(rs, parse);
            return Err(MalformedPayload);
          }
          message := message.(payload := Parsed(parsed.value));
        }
        messages := messages + [message];
        j := j + 1;
      }
      assert MessagesParse(request.messages, parse) by {
        forall k | 0 <= k < |request.messages| && Hydratable(request.messages[k].payload)
          ensures parse(request.messages[k].payload.text).Some?
        {
          assert HydrateMessage(request.messages[k], parse).Some?;
        }
      }
      HydrateMessagesAt(request.messages, parse);
      assert HydrateMessages(request.messages, parse).value == messages;
      requests := requests + [request.(messages := messages)];
      i := i + 1;
    }
    HydrateRequestsAt(rs, parse);
    assert HydrateRequests(rs, parse).value == requests;
    r := Ok(RequestsView(requests, [], requests));
  }

  // ---------------------------------------------------------------------------
  // messages.summary and messages.detail
  // ---------------------------------------------------------------------------

  /** A message enters the messages summary when its `indices` or its
      `abstract` is non-empty. */
  predicate Qualifies(m: Message) {
    !IsEmpty(m.indices) || !IsEmpty(m.abstractInfo)
  }

  /** The qualifying messages of `ms`, in order. */
  function Qualifying(ms: seq<Message>): (r: seq<Message>)
    ensures |r| <= |ms|
  {
    if ms == [] then []
    else (if Qualifies(ms[0]) then [ms[0]] else []) + Qualifying(ms[1..])
  }

  /** The messages of every record, record after record. */
  function AllMessages(raws: seq<RawRequest>): seq<Message>
  {
    if raws == [] then [] else raws[0].messages + AllMessages(raws[1..])
  }

  /** The value of messages.summary. */
  function MessagesSummaryList(raws: seq<RawRequest>): seq<Message>
  {
    Qualifying(AllMessages(raws))
  }

  /** messages.detail: the record's messages, unfiltered. */
  function MessagesDetail(raw: RawRequest): (ms: seq<Message>)
    ensures ms == raw.messages
  {
    raw.messages
  }

  lemma {:induction false} QualifyingAppend(a: seq<Message>, b: seq<Message>)
    ensures Qualifying(a + b) == Qualifying(a) + Qualifying(b)
  {
    if a == [] {
      assert a + b == b;
    } else {
      var head := if Qualifies(a[0]) then [a[0]] else [];
      assert (a + b)[0] == a[0];
      assert (a + b)[1..] == a[1..] + b;
      assert Qualifying(a + b) == head + Qualifying(a[1..] + b);
      QualifyingAppend(a[1..], b);
      assert head + (Qualifying(a[1..]) + Qualifying(b)) == (head + Qualifying(a[1..])) + Qualifying(b);
    }
  }

  lemma {:induction false} AllMessagesAppend(a: seq<RawRequest>, b: seq<RawRequest>)
    ensures AllMessages(a + b) == AllMessages(a) + AllMessages(b)
  {
    if a == [] {
      assert a + b == b;
    } else {
      assert (a + b)[0] == a[0];
      assert (a + b)[1..] == a[1..] + b;
      assert AllMessages(a + b) == a[0].messages + AllMessages(a[1..] + b);
      AllMessagesAppend(a[1..], b);
      assert a[0].messages + (AllMessages(a[1..]) + AllMessages(b)) == (a[0].messages + AllMessages(a[1..])) + AllMessages(b);
    }
  }

  /** A message is in the filtered list exactly when it is in the input and qualifies. */
  lemma {:induction false} QualifyingMembers(ms: seq<Message>)
    ensures forall m :: m in Qualifying(ms) <==> m in ms && Qualifies(m)
  {
    if ms != [] {
      QualifyingMembers(ms[1..]);
      assert forall m :: m in ms <==> m == ms[0] || m in ms[1..];
    }
  }

  /** Order and exactness of the filter: the qualifying message at input
      position j sits in the output right after the qualifying messages that
      precede it, and a message that does not qualify contributes nothing. */
  lemma QualifyingPosition(ms: seq<Message>, j: nat)
    requires j < |ms|
    ensures Qualifies(ms[j]) ==>
              |Qualifying(ms[..j])| < |Qualifying(ms)| && Qualifying(ms)[|Qualifying(ms[..j])|] == ms[j]
    ensures !Qualifies(ms[j]) ==> Qualifying(ms[..j + 1]) == Qualifying(ms[..j])
  {
    assert ms == ms[..j] + ms[j..];
    QualifyingAppend(ms[..j], ms[j..]);
    assert ms[j..][0] == ms[j];
    assert ms[..j + 1] == ms[..j] + [ms[j]];
    QualifyingAppend(ms[..j], [ms[j]]);
    assert [ms[j]][1..] == [];
  }

  /** A message is in the flattened list exactly when some record carries it. */
  lemma {:induction false} AllMessagesMembers(raws: seq<RawRequest>)
    ensures forall m :: m in AllMessages(raws) <==> exists i :: 0 <= i < |raws| && m in raws[i].messages
  {
    if raws != [] {
      AllMessagesMembers(raws[1..]);
      forall m | m in AllMessages(raws)
        ensures exists i :: 0 <= i < |raws| && m in raws[i].messages
      {
        if m !in raws[0].messages {
          assert m in AllMessages(raws[1..]);
          var i :| 0 <= i < |raws[1..]| && m in raws[1..][i].messages;
          assert m in raws[i + 1].messages;
        }
      }
      forall m, i | 0 <= i < |raws| && m in raws[i].messages
        ensures m in AllMessages(raws)
      {
        if i > 0 {
          assert raws[1..][i - 1] == raws[i];
        }
      }
    }
  }

  /** messages.summary keeps exactly the qualifying messages of all records. */
  lemma MessagesSummaryMembers(raws: seq<RawRequest>)
    ensures forall m :: m in MessagesSummaryList(raws) <==>
              Qualifies(m) && exists i :: 0 <= i < |raws| && m in raws[i].messages
  {
    QualifyingMembers(AllMessages(raws));
    AllMessagesMembers(raws);
  }

  /** The summary of one record is its detail list filtered, and never longer. */
  lemma MessagesSummaryOfRecord(raw: RawRequest)
    ensures MessagesSummaryList([raw]) == Qualifying(MessagesDetail(raw))
    ensures |MessagesSummaryList([raw])| <= |MessagesDetail(raw)|
  {
    assert [raw][1..] == [];
    assert AllMessages([raw]) == raw.messages + [];
    assert raw.messages + [] == raw.messages;
  }

  /** messages.summary: walks the messages of every record and pushes each
      qualifying one. */
  method MessagesSummary(rawRequests: seq<RawRequest>) returns (messages: seq<Message>)
    ensures messages == MessagesSummaryList(rawRequests)
  {
    messages := [];
    var i := 0;
    while i < |rawRequests|
      invariant 0 <= i <= |rawRequests|
      invariant messages == Qualifying(AllMessages(rawRequests[..i]))
    {
      var request := rawRequests[i];
      var j := 0;
      while j < |request.messages|
        invariant 0 <= j <= |request.messages|
        invariant messages == Qualifying(AllMessages(rawRequests[..i])) + Qualifying(request.messages[..j])
      {
        var message := request.messages[j];
        assert request.messages[..j + 1] == request.messages[..j] + [message];
        QualifyingAppend(request.messages[..j], [message]);
        assert [message][1..] == [];
        if Qualifies(message) {
          messages := messages + [message];
        }
        j := j + 1;
      }
      assert request.messages[..j] == request.messages;
      assert rawRequests[..i + 1] == rawRequests[..i] + [request];
      AllMessagesAppend(rawRequests[..i], [request]);
      assert [request][1..] == [];
      assert AllMessages([request]) == request.messages + [];
      assert request.messages + [] == request.messages;
      QualifyingAppend(AllMessages(rawRequests[..i]), request.messages);
      i := i + 1;
    }
    assert rawRequests[..i] == rawRequests;
  }
}
