/**
 * What the client does with a response: the `onRequest` handler collects
 * the body segment by segment and hands the whole text to the callback on
 * the `end` event; `version` picks the `version` field out of the parsed
 * reply.
 */
module Responses {
  import opened Wrappers
  import opened JsValues

  /**
   * The events the transport reports for one request, in the order they
   * arrive: a `data` segment of the body, the response's `end`, or the
   * request's `error`.
   */
  datatype Event = Data(segment: string) | End | Failed

  /** The segments joined in order. */
  function Concat(segments: seq<string>): string {
    if segments == [] then ""
    else Concat(segments[..|segments| - 1]) + segments[|segments| - 1]
  }

  lemma {:induction false} ConcatAppend(a: seq<string>, b: seq<string>)
    ensures Concat(a + b) == Concat(a) + Concat(b)
  {
    if b == [] {
      assert a + b == a;
    } else {
      var ab := a + b;
      var n := |b| - 1;
      assert ab[..|ab| - 1] == a + b[..n];
      assert ab[|ab| - 1] == b[n];
      assert Concat(ab) == Concat(a + b[..n]) + b[n];
      ConcatAppend(a, b[..n]);
      assert (Concat(a) + Concat(b[..n])) + b[n] == Concat(a) + (Concat(b[..n]) + b[n]);
    }
  }

  /** Every character of every segment arrives, none is added. */
  lemma {:induction false} ConcatLength(segments: seq<string>)
    ensures |Concat(segments)| == SumOfLengths(segments)
  {
    if segments != [] {
      ConcatLength(segments[..|segments| - 1]);
    }
  }

  function SumOfLengths(segments: seq<string>): nat {
    if segments == [] then 0
    else SumOfLengths(segments[..|segments| - 1]) + |segments[|segments| - 1]|
  }

  /** The text in `result` after `events`: the data segments so far, in order. */
  function Buffered(events: seq<Event>): string {
    if events == [] then ""
    else
      var last := events[|events| - 1];
      Buffered(events[..|events| - 1]) + (if last.Data? then last.segment else "")
  }

  /** The arguments of the callback calls that `events` cause, in order. */
  function Deliveries(events: seq<Event>): seq<string> {
    if events == [] then []
    else
      var prior := events[..|events| - 1];
      Deliveries(prior) + (if events[|events| - 1].End? then [Buffered(prior)] else [])
  }

  /** The number of `end` events. */
  function EndCount(events: seq<Event>): nat {
    if events == [] then 0
    else EndCount(events[..|events| - 1]) + (if events[|events| - 1].End? then 1 else 0)
  }

  /** A body arriving as `segments`, one data event each. */
  function DataEvents(segments: seq<string>): (r: seq<Event>)
    ensures |r| == |segments|
    ensures forall i :: 0 <= i < |r| ==> r[i] == Data(segments[i])
  {
    seq(|segments|, i requires 0 <= i < |segments| => Data(segments[i]))
  }

  /**
   * What each run of the `end` listener does, in order: with a callback it
   * calls it with `result`; without one (a helper called with no callback
   * argument), `callback(result)` throws `TypeError` and nothing is
   * delivered.
   */
  function EndOutcomes(events: seq<Event>, hasCallback: bool): seq<Result<string, Exception>> {
    if events == [] then []
    else
      var prior := events[..|events| - 1];
      EndOutcomes(prior, hasCallback) +
        if events[|events| - 1].End? then
          [if hasCallback then Success(Buffered(prior)) else Failure(TypeError)]
        else []
  }

  /**
   * `onRequest` with its two listeners: `appendToResult` adds each segment
   * to `result`, `returnResult` calls back with `result`. An `error` event
   * is only logged, so it leaves both alone.
   */
  method OnRequest(events: seq<Event>, hasCallback: bool) returns (outcomes: seq<Result<string, Exception>>)
    ensures outcomes == EndOutcomes(events, hasCallback)
    ensures |outcomes| == EndCount(events)
  {
    var result := "";
    outcomes := [];
    for i := 0 to |events|
      invariant result == Buffered(events[..i])
      invariant outcomes == EndOutcomes(events[..i], hasCallback)
      invariant |outcomes| == EndCount(events[..i])
    {
      assert events[..i + 1][..i] == events[..i];
      match events[i]
      case Data(segment) =>
        result := result + segment;
      case End =>
        if hasCallback {
          outcomes := outcomes + [Success(result)];
        } else {
          outcomes := outcomes + [Failure(TypeError)];
        }
      case Failed =>
    }
    assert events[..|events|] == events;
  }

  /** With a callback, every `end` delivers: the outcomes are exactly the deliveries. */
  lemma {:induction false} OutcomesWithCallback(events: seq<Event>)
    ensures |EndOutcomes(events, true)| == |Deliveries(events)|
    ensures forall i :: 0 <= i < |Deliveries(events)| ==>
      EndOutcomes(events, true)[i] == Success(Deliveries(events)[i])
  {
    if events != [] {
      OutcomesWithCallback(events[..|events| - 1]);
    }
  }

  /** Without a callback, every `end` throws and nothing is delivered. */
  lemma {:induction false} OutcomesWithoutCallback(events: seq<Event>)
    ensures |EndOutcomes(events, false)| == EndCount(events)
    ensures forall i :: 0 <= i < |EndOutcomes(events, false)| ==> EndOutcomes(events, false)[i] == Failure(TypeError)
  {
    if events != [] {
      OutcomesWithoutCallback(events[..|events| - 1]);
    }
  }

  /** There is one delivery per `end` event. */
  lemma {:induction false} DeliveriesCount(events: seq<Event>)
    ensures |Deliveries(events)| == EndCount(events)
  {
    if events != [] {
      DeliveriesCount(events[..|events| - 1]);
    }
  }

  lemma {:induction false} BufferedDataEvents(segments: seq<string>)
    ensures Buffered(DataEvents(segments)) == Concat(segments)
    ensures Deliveries(DataEvents(segments)) == []
  {
    if segments != [] {
      var n := |segments| - 1;
      assert DataEvents(segments)[..n] == DataEvents(segments[..n]);
      BufferedDataEvents(segments[..n]);
    }
  }

  /**
   * A body that ends normally reaches the callback exactly once, as the
   * in-order concatenation of all its segments.
   */
  lemma DeliveredOnceAtEnd(segments: seq<string>)
    ensures Deliveries(DataEvents(segments) + [End]) == [Concat(segments)]
  {
    var events := DataEvents(segments) + [End];
    assert events[..|events| - 1] == DataEvents(segments);
    BufferedDataEvents(segments);
  }

  /** A request that fails is only logged: the callback never runs. */
  lemma FailureDeliversNothing(segments: seq<string>)
    ensures Deliveries(DataEvents(segments) + [Failed]) == []
  {
    var events := DataEvents(segments) + [Failed];
    assert events[..|events| - 1] == DataEvents(segments);
    BufferedDataEvents(segments);
  }

  /** Without a callback, a body that ends normally is lost to the `TypeError` its `end` listener throws. */
  lemma NoCallbackDeliversNothing(segments: seq<string>)
    ensures EndOutcomes(DataEvents(segments) + [End], false) == [Failure(TypeError)]
  {
    var events := DataEvents(segments) + [End];
    assert events[..|events| - 1] == DataEvents(segments);
    OutcomesWithoutCallback(DataEvents(segments));
    BufferedDataEvents(segments);
    DeliveriesCount(DataEvents(segments));
  }

  /** The message `version` delivers when the reply has no version. */
  const VersionUnavailable: string := "Unable To Get Version"

  /**
   * What `version` hands to its callback, given the outcome of
   * `JSON.parse` on the reply text (`None` when the text is not JSON); a
   * `Failure` is the exception thrown before the callback is reached.
   */
  function VersionOf(parsed: Option<Value>): (r: Result<Value, Exception>)
    ensures parsed.None? ==> r == Failure(SyntaxError)
    ensures parsed.Some? && !IsObject(parsed.value) ==> r == Failure(TypeError)
    ensures parsed.Some? && IsObject(parsed.value) && HasProperty(parsed.value, "version") ==>
      r == Success(Property(parsed.value, "version"))
    ensures parsed.Some? && IsObject(parsed.value) && !HasProperty(parsed.value, "version") ==>
      r == Success(Str(VersionUnavailable))
  {
    match parsed
    case None => Failure(SyntaxError)
    case Some(response) =>
      if !IsObject(response) then Failure(TypeError)
      else if HasProperty(response, "version") then Success(Property(response, "version"))
      else Success(Str(VersionUnavailable))
  }

  /**
   * The outcome of the `end` handler of `version`, once per delivery of the
   * underlying GET: `Success(v)` when the callback receives `v`, and a
   * `Failure` for the exception the handler throws instead, in which case
   * the callback is not called.
   */
  function VersionDeliveries(events: seq<Event>, parse: string -> Option<Value>): (r: seq<Result<Value, Exception>>)
    ensures |r| == |Deliveries(events)|
  {
    var texts := Deliveries(events);
    seq(|texts|, i requires 0 <= i < |texts| => VersionOf(parse(texts[i])))
  }

  /**
   * A server whose whole reply parses to an object carrying `version`
   * gets exactly that value delivered, once; without the field, exactly
   * the fixed message.
   */
  lemma VersionDeliveredOnce(segments: seq<string>, parse: string -> Option<Value>, reply: Value)
    requires parse(Concat(segments)) == Some(reply) && reply.Obj?
    ensures VersionDeliveries(DataEvents(segments) + [End], parse) ==
      if "version" in reply.fields then [Success(reply.fields["version"])]
      else [Success(Str(VersionUnavailable))]
  {
    DeliveredOnceAtEnd(segments);
  }
}
