/**
 * The adapter object: the `GET /webhook/` verification handler, the
 * `POST /webhook/` event loop, `receive` into the host robot and the handoff
 * of built payloads to `postData`.
 */
module Webhook {
  import opened Wrappers
  import opened Normalizer
  import opened Inbound
  import opened Outbound

  // ---------------------------------------------------------------- GET /webhook/

  /** The query parameters `hub.verify_token` and `hub.challenge`. */
  datatype Query = Query(verifyToken: Option<string>, challenge: Option<string>)

  /** What a request handler does that can be observed from outside, in order. */
  datatype Effect =
    | Respond(body: Option<string>)
    | RespondStatus(code: int)
    | WarnWrongToken

  const WrongTokenBody: string := "Error, wrong validation token"

  /**
   * The GET handler as written: the token test has no `return`, so the warning
   * and the error body follow on every request, matched or not. `===` between
   * two values that are each a string or `undefined` is equality of options.
   */
  function GetEffects(q: Query, configured: Option<string>): (r: seq<Effect>)
    ensures |r| == (if q.verifyToken == configured then 3 else 2)
    ensures r[|r| - 2..] == [WarnWrongToken, Respond(Some(WrongTokenBody))]
    ensures q.verifyToken == configured ==> r[0] == Respond(q.challenge)
  {
    (if q.verifyToken == configured then [Respond(q.challenge)] else [])
    + [WarnWrongToken, Respond(Some(WrongTokenBody))]
  }

  /** The bodies sent by a sequence of effects, in order. */
  function Responses(effects: seq<Effect>): seq<Option<string>>
  {
    if effects == [] then []
    else (if effects[0].Respond? then [effects[0].body] else []) + Responses(effects[1..])
  }

  lemma {:induction false} ResponsesAppend(a: seq<Effect>, b: seq<Effect>)
    ensures Responses(a + b) == Responses(a) + Responses(b)
  {
    if a != [] {
      assert (a + b)[1..] == a[1..] + b;
      ResponsesAppend(a[1..], b);
    } else {
      assert a + b == b;
    }
  }

  /**
   * As written: a matching request is answered with the challenge and then with
   * the error body; every request gets the warning and the error body.
   */
  lemma GetResponsesAsWritten(q: Query, configured: Option<string>)
    ensures Responses(GetEffects(q, configured)) ==
      (if q.verifyToken == configured then [q.challenge, Some(WrongTokenBody)] else [Some(WrongTokenBody)])
    ensures WarnWrongToken in GetEffects(q, configured)
  {
    var head: seq<Effect> := if q.verifyToken == configured then [Respond(q.challenge)] else [];
    ResponsesAppend(head, [WarnWrongToken, Respond(Some(WrongTokenBody))]);
    ResponsesAppend([WarnWrongToken], [Respond(Some(WrongTokenBody))]);
    assert GetEffects(q, configured)[|head| + 1] == Respond(Some(WrongTokenBody));
    assert GetEffects(q, configured)[|head|] == WarnWrongToken;
  }

  /** A matching verification request is answered twice, the second time with the error body. */
  lemma DoubleResponseOnMatch(q: Query, configured: Option<string>)
    requires q.verifyToken == configured
    ensures |Responses(GetEffects(q, configured))| == 2
    ensures Responses(GetEffects(q, configured))[1] == Some(WrongTokenBody)
  {
    GetResponsesAsWritten(q, configured);
  }

  /**
   * With no token configured (`process.env` unset), a request that carries no
   * `hub.verify_token` passes the `===` test and gets its challenge echoed.
   */
  lemma UnsetTokenAcceptsTokenlessRequest(challenge: Option<string>)
    ensures Responses(GetEffects(Query(None, challenge), None))[0] == challenge
  {
    GetResponsesAsWritten(Query(None, challenge), None);
  }

  datatype VerifyError = TokenMismatch

  /** The verification gate with an early return after the challenge. */
  function VerifyChallenge(provided: Option<string>, configured: Option<string>, challenge: Option<string>): (r: Result<Option<string>, VerifyError>)
    ensures r.Ok? <==> provided == configured
    ensures r.Ok? ==> r.value == challenge
  {
    if provided == configured then Ok(challenge) else Err(TokenMismatch)
  }

  function CorrectedGetEffects(q: Query, configured: Option<string>): seq<Effect>
  {
    match VerifyChallenge(q.verifyToken, configured, q.challenge)
    case Ok(c) => [Respond(c)]
    case Err(_) => [WarnWrongToken, Respond(Some(WrongTokenBody))]
  }

  /** Corrected: every request is answered exactly once, with the challenge exactly when the token matches. */
  lemma CorrectedRespondsOnce(q: Query, configured: Option<string>)
    ensures Responses(CorrectedGetEffects(q, configured)) ==
      (if q.verifyToken == configured then [q.challenge] else [Some(WrongTokenBody)])
    ensures WarnWrongToken in CorrectedGetEffects(q, configured) <==> q.verifyToken != configured
  {
    if q.verifyToken != configured {
      ResponsesAppend([WarnWrongToken], [Respond(Some(WrongTokenBody))]);
    }
  }

  lemma VerifyChallengeExamples()
    ensures VerifyChallenge(Some("abc"), Some("abc"), Some("xyz")) == Ok(Some("xyz"))
    ensures VerifyChallenge(Some("wrong"), Some("abc"), Some("xyz")) == Err(TokenMismatch)
  {
  }

  // ---------------------------------------------------------------- POST /webhook/

  datatype Entry = Entry(messaging: Option<seq<RawEvent>>)

  /** The request body `{entry: [{messaging: [...]}, ...]}`. */
  datatype WebhookBody = WebhookBody(entry: Option<seq<Entry>>)

  /** `req.body.entry[0].messaging`, or `None` where reading it throws. */
  function Events(body: WebhookBody): Option<seq<RawEvent>>
  {
    if body.entry.Some? && |body.entry.value| > 0 then body.entry.value[0].messaging else None
  }

  /** The messages one event hands to `receive`. */
  function Output(o: Outcome): seq<TextMessage>
  {
    if o.Emitted? then [o.msg] else []
  }

  /** The messages a run of the event loop receives, and whether it ran to the end without a throw. */
  datatype BatchResult = BatchResult(messages: seq<TextMessage>, completed: bool)

  /**
   * The event loop over `events`, each one handled by `handle` in array order;
   * the first throw ends the loop. The adapter's loop is `RunEach(events, Process)`.
   */
  function RunEach(events: seq<RawEvent>, handle: RawEvent -> Outcome): (r: BatchResult)
    ensures |r.messages| <= |events|
  {
    if events == [] then BatchResult([], true)
    else
      var o := handle(events[0]);
      if o.Threw? then BatchResult([], false)
      else
        var rest := RunEach(events[1..], handle);
        BatchResult(Output(o) + rest.messages, rest.completed)
  }

  /** The loop runs to the end exactly when no event throws. */
  lemma {:induction false} RunEachCompletesIff(events: seq<RawEvent>, handle: RawEvent -> Outcome)
    ensures RunEach(events, handle).completed <==> forall k :: 0 <= k < |events| ==> !handle(events[k]).Threw?
  {
    if events != [] {
      RunEachCompletesIff(events[1..], handle);
      assert forall k :: 1 <= k < |events| ==> events[1..][k - 1] == events[k];
    }
  }

  /** Running two batches back to back is running their concatenation, unless the first one threw. */
  lemma {:induction false} BatchAppend(a: seq<RawEvent>, b: seq<RawEvent>, handle: RawEvent -> Outcome)
    ensures RunEach(a, handle).completed ==>
      RunEach(a + b, handle) == BatchResult(RunEach(a, handle).messages + RunEach(b, handle).messages, RunEach(b, handle).completed)
    ensures !RunEach(a, handle).completed ==> RunEach(a + b, handle) == RunEach(a, handle)
  {
    if a != [] {
      assert (a + b)[0] == a[0];
      assert (a + b)[1..] == a[1..] + b;
      BatchAppend(a[1..], b, handle);
    } else {
      assert a + b == b;
    }
  }

  /** A reference definition: the messages of every event, concatenated in array order. */
  function AllOutputs(events: seq<RawEvent>, handle: RawEvent -> Outcome): seq<TextMessage>
  {
    if events == [] then [] else AllOutputs(events[..|events| - 1], handle) + Output(handle(events[|events| - 1]))
  }

  /** When no event throws, the loop completes and receives exactly the concatenation of every event's output. */
  lemma {:induction false} BatchIsConcatenation(events: seq<RawEvent>, handle: RawEvent -> Outcome)
    requires forall k :: 0 <= k < |events| ==> !handle(events[k]).Threw?
    ensures RunEach(events, handle) == BatchResult(AllOutputs(events, handle), true)
  {
    if events != [] {
      var init := events[..|events| - 1];
      var last := events[|events| - 1];
      assert init + [last] == events;
      BatchIsConcatenation(init, handle);
      BatchAppend(init, [last], handle);
    }
  }

  /** One more event that does not throw extends the batch by its output. */
  lemma BatchStep(events: seq<RawEvent>, i: nat, handle: RawEvent -> Outcome)
    requires i < |events| && !handle(events[i]).Threw?
    requires RunEach(events[..i], handle).completed
    ensures RunEach(events[..i + 1], handle) == BatchResult(RunEach(events[..i], handle).messages + Output(handle(events[i])), true)
  {
    assert events[..i + 1] == events[..i] + [events[i]];
    BatchAppend(events[..i], [events[i]], handle);
  }

  /** An event that throws ends the loop: nothing after it is received and no status is sent. */
  lemma BatchStopsAtThrow(events: seq<RawEvent>, i: nat, handle: RawEvent -> Outcome)
    requires i < |events| && handle(events[i]).Threw?
    requires RunEach(events[..i], handle).completed
    ensures RunEach(events, handle) == BatchResult(RunEach(events[..i], handle).messages, false)
  {
    assert events[..i] + events[i..] == events;
    assert events[i..][0] == events[i];
    BatchAppend(events[..i], events[i..], handle);
  }

  /** An event that emits nothing contributes nothing and does not stop the loop. */
  lemma BatchSkipsSilentHead(e: RawEvent, b: seq<RawEvent>, handle: RawEvent -> Outcome)
    requires handle(e).Silent?
    ensures RunEach([e] + b, handle) == RunEach(b, handle)
  {
    BatchAppend([e], b, handle);
  }

  /** An event that emits nothing (echo, receipt or unrecognised) leaves its neighbours' handling unchanged. */
  lemma SilentEventIsTransparent(a: seq<RawEvent>, e: RawEvent, b: seq<RawEvent>, handle: RawEvent -> Outcome)
    requires handle(e).Silent?
    ensures RunEach(a + [e] + b, handle) == RunEach(a + b, handle)
  {
    assert a + [e] + b == a + ([e] + b);
    assert ([e] + b)[0] == e;
    assert ([e] + b)[1..] == b;
    BatchAppend(a, [e] + b, handle);
    BatchAppend(a, b, handle);
  }

  /**
   * The adapter's own loop: a malformed event between two others that matches no
   * test is ignored, and its neighbours are handled as if it were not there.
   */
  lemma IgnoredEventSkipped(e1: RawEvent, bad: RawEvent, e3: RawEvent)
    requires Classify(bad) == Ignored
    ensures RunEach([e1, bad, e3], Process) == RunEach([e1, e3], Process)
  {
    SilentIffNoMessageKind(bad);
    assert [e1, bad, e3] == [e1] + [bad] + [e3];
    assert [e1, e3] == [e1] + [e3];
    SilentEventIsTransparent([e1], bad, [e3], Process);
  }

  // ---------------------------------------------------------------- the adapter

  /** A payload handed to `postData` together with the access token. */
  datatype Post = Post(payload: Payload, accessToken: string)

  class Messenger {
    /** `MESSENGER_VERIFY_TOKEN`, or `None` when the variable is unset. */
    const verifyToken: Option<string>
    /** Every message handed to the robot's `receive`, in order. */
    var received: seq<TextMessage>
    /** Every payload handed to the transport, in order. */
    var posts: seq<Post>
    /** The effects of the webhook handlers, in order. */
    var log: seq<Effect>

    constructor (verifyToken: Option<string>)
      ensures this.verifyToken == verifyToken
      ensures received == [] && posts == [] && log == []
    {
      this.verifyToken := verifyToken;
      received, posts, log := [], [], [];
    }

    method Receive(m: TextMessage)
      modifies this`received
      ensures received == old(received) + [m]
    {
      received := received + [m];
    }

    /** `processMsg`: classify one event and hand its message, if any, to `receive`. */
    method ProcessMsg(e: RawEvent) returns (threw: bool)
      modifies this`received
      ensures threw <==> Process(e).Threw?
      ensures received == old(received) + Output(Process(e))
    {
      var outcome := Process(e);
      threw := outcome.Threw?;
      if outcome.Emitted? {
        Receive(outcome.msg);
      }
    }

    method PostData(payload: Payload, accessToken: string)
      modifies this`posts
      ensures posts == old(posts) + [Post(payload, accessToken)]
    {
      posts := posts + [Post(payload, accessToken)];
    }

    /** `send`: build the payload for `para.type` and post it; an unknown type posts nothing. */
    method Send(envelope: Envelope, para: Para, accessToken: string)
      modifies this`posts
      ensures posts == old(posts) + (if para.kind in SendKinds then [Post(BuildPayload(envelope, para).value, accessToken)] else [])
    {
      var payload := BuildPayload(envelope, para);
      if payload.Some? {
        PostData(payload.value, accessToken);
      }
    }

    /** The `GET /webhook/` handler as written. */
    method HandleGet(q: Query)
      modifies this`log
      ensures log == old(log) + GetEffects(q, verifyToken)
    {
      if q.verifyToken == verifyToken {
        log := log + [Respond(q.challenge)];
      }
      log := log + [WarnWrongToken];
      log := log + [Respond(Some(WrongTokenBody))];
    }

    /**
     * The `POST /webhook/` handler: every event of `entry[0].messaging`, in
     * order, then status 200. A throw (no first entry, no `messaging`, or an
     * event that throws) ends the handler before any response.
     */
    method HandlePost(body: WebhookBody) returns (responded: bool)
      modifies this`received, this`log
      ensures responded <==> Events(body).Some? && RunEach(Events(body).value, Process).completed
      ensures received == old(received) + (if Events(body).Some? then RunEach(Events(body).value, Process).messages else [])
      ensures log == old(log) + (if responded then [RespondStatus(200)] else [])
    {
      var msgEvents := Events(body);
      if msgEvents.None? {
        return false;
      }
      var events := msgEvents.value;
      var i := 0;
      while i < |events|
        invariant 0 <= i <= |events|
        invariant RunEach(events[..i], Process).completed
        invariant received == old(received) + RunEach(events[..i], Process).messages
        invariant log == old(log)
      {
        var threw := ProcessMsg(events[i]);
        if threw {
          BatchStopsAtThrow(events, i, Process);
          return false;
        }
        BatchStep(events, i, Process);
        i := i + 1;
      }
      assert events[..i] == events;
      log := log + [RespondStatus(200)];
      responded := true;
    }
  }
}
