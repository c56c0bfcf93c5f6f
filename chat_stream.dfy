/**
 * `streamChat` of lib/chat-stream.ts: posts a chat message and reads the answer as a stream of decoded text
 * chunks. Every chunk is split on '\n' by itself; a line that begins with `data: ` carries a payload, which ends the
 * stream when it trims to `[DONE]` and is otherwise parsed as JSON and dispatched to the `onChunk`, `onSources` and
 * `onError` callbacks. This is a small subset of the `data:` field handling of the WHATWG HTML Living Standard
 * (section 9.2.6, "Interpreting an event stream"): no buffering across reads, no blank-line dispatch, no reconnect.
 *
 * The stream is the sequence of decoded chunks (`None` when the response has no body); `JSON.parse` is the partial
 * function `parse`; `throws` says which callback invocations throw. The result is the list of callback invocations.
 */
module ChatStream {
  import opened Base
  import opened Strings
  import opened JsonValues
  import opened Http

  const DataPrefix := "data: "
  const DoneMarker := "[DONE]"

  /** One callback invocation, with the raw value it receives. */
  datatype Event = OnChunk(chunk: Json) | OnSources(sources: Json) | OnError(error: Json)

  /** The callback invocations so far, and whether `[DONE]` has ended the stream. */
  datatype Trace = Trace(events: seq<Event>, stopped: bool)

  const Silent := Trace([], false)

  /** `t`, then `u` unless `t` has already stopped. */
  function Then(t: Trace, u: Trace): Trace {
    if t.stopped then t else Trace(t.events + u.events, u.stopped)
  }

  /** A trace that runs over a list by stepping through it, stopping for good at the first stopping step. */
  function Fold<T>(xs: seq<T>, step: T -> Trace): Trace
    decreases |xs|
  {
    if |xs| == 0 then Silent else Then(Fold(xs[..|xs| - 1], step), step(xs[|xs| - 1]))
  }

  lemma ThenAssociative(t: Trace, u: Trace, v: Trace)
    ensures Then(Then(t, u), v) == Then(t, Then(u, v))
  {
    if !t.stopped && !u.stopped {
      assert t.events + u.events + v.events == t.events + (u.events + v.events);
    }
  }

  /** Running over `a + b` is running over `a`, then over `b`. */
  lemma {:induction false} FoldConcat<T>(a: seq<T>, b: seq<T>, step: T -> Trace)
    ensures Fold(a + b, step) == Then(Fold(a, step), Fold(b, step))
    decreases |b|
  {
    if |b| == 0 {
      assert a + b == a;
      var t := Fold(a, step);
      assert Then(t, Silent) == t by {
        if !t.stopped { assert t.events + [] == t.events; }
      }
    } else {
      var b' := b[..|b| - 1];
      assert (a + b)[..|a + b| - 1] == a + b';
      assert (a + b)[|a + b| - 1] == b[|b| - 1];
      FoldConcat(a, b', step);
      ThenAssociative(Fold(a, step), Fold(b', step), step(b[|b| - 1]));
    }
  }

  /** A step that neither stops nor fires leaves the trace as it is wherever it occurs. */
  lemma FoldSkip<T>(a: seq<T>, x: T, b: seq<T>, step: T -> Trace)
    requires step(x) == Silent
    ensures Fold(a + [x] + b, step) == Fold(a + b, step)
  {
    FoldConcat(a + [x], b, step);
    FoldConcat(a, b, step);
    assert (a + [x])[..|a + [x]| - 1] == a;
    var t := Fold(a, step);
    assert Then(t, Silent) == t by {
      if !t.stopped { assert t.events + [] == t.events; }
    }
  }

  /** Once a step stops, what follows it contributes nothing. */
  lemma FoldStops<T>(a: seq<T>, x: T, b: seq<T>, step: T -> Trace)
    requires step(x).stopped
    ensures Fold(a + [x] + b, step) == Then(Fold(a, step), step(x))
  {
    FoldConcat(a + [x], b, step);
    assert (a + [x])[..|a + [x]| - 1] == a;
  }

  /** With no stopping step the run never stops. */
  lemma {:induction false} FoldNeverStops<T>(xs: seq<T>, step: T -> Trace)
    requires forall i :: 0 <= i < |xs| ==> !step(xs[i]).stopped
    ensures !Fold(xs, step).stopped
    decreases |xs|
  {
    if |xs| > 0 {
      FoldNeverStops(xs[..|xs| - 1], step);
    }
  }

  // ---------------------------------------------------------------- one payload

  /** The callbacks a parsed payload calls for, in source order: truthy `response`, `sources`, `error`. */
  function Candidates(parsed: Json): (r: seq<Event>)
    ensures |r| <= 3
  {
    (if TruthyOpt(Get(parsed, "response")) then [OnChunk(Get(parsed, "response").value)] else []) +
    (if TruthyOpt(Get(parsed, "sources")) then [OnSources(Get(parsed, "sources").value)] else []) +
    (if TruthyOpt(Get(parsed, "error")) then [OnError(Get(parsed, "error").value)] else [])
  }

  /** The invocations up to and including the first one that throws: a throw abandons the rest of the payload. */
  function UntilThrow(evs: seq<Event>, throws: Event -> bool): (r: seq<Event>)
    ensures r <= evs
    ensures (forall i :: 0 <= i < |evs| ==> !throws(evs[i])) ==> r == evs
    ensures forall i :: 0 <= i < |r| - 1 ==> !throws(r[i])
    ensures |r| < |evs| ==> |r| > 0 && throws(r[|r| - 1])
    decreases |evs|
  {
    if |evs| == 0 then []
    else if throws(evs[0]) then [evs[0]]
    else [evs[0]] + UntilThrow(evs[1..], throws)
  }

  /** The `try` block for one parsed payload. */
  function Dispatch(parsed: Json, throws: Event -> bool): seq<Event> {
    UntilThrow(Candidates(parsed), throws)
  }

  /** A line that ends the stream. */
  predicate IsDoneLine(line: string) {
    StartsWith(line, DataPrefix) && Trim(line[|DataPrefix|..]) == DoneMarker
  }

  /** What one line of a chunk does. */
  function LineTrace(line: string, parse: string -> Option<Json>, throws: Event -> bool): (r: Trace)
    ensures r.stopped <==> IsDoneLine(line)
  {
    if !StartsWith(line, DataPrefix) then Silent
    else
      var data := line[|DataPrefix|..];
      if Trim(data) == DoneMarker then Trace([], true)
      else
        match parse(data)
        case None => Silent
        case Some(parsed) => Trace(Dispatch(parsed, throws), false)
  }

  function LineStep(parse: string -> Option<Json>, throws: Event -> bool): string -> Trace {
    (line: string) => LineTrace(line, parse, throws)
  }

  /** What one decoded chunk does: its own lines, in order. */
  function ChunkTrace(chunk: string, parse: string -> Option<Json>, throws: Event -> bool): Trace {
    Fold(Split(chunk, '\n'), LineStep(parse, throws))
  }

  function ChunkStep(parse: string -> Option<Json>, throws: Event -> bool): string -> Trace {
    (chunk: string) => ChunkTrace(chunk, parse, throws)
  }

  /**
   * The whole stream. The read that reports `done` carries no value, and decoding nothing gives the empty
   * string, so it is the chunk "" after the others.
   */
  function StreamTrace(body: Option<seq<string>>, parse: string -> Option<Json>, throws: Event -> bool): (r: Trace)
    ensures body.None? ==> r.events == [] && !r.stopped
    ensures body.Some? ==> r == Fold(body.value + [""], ChunkStep(parse, throws))
  {
    match body
    case None => Silent
    case Some(received) => Fold(received + [""], ChunkStep(parse, throws))
  }

  // ---------------------------------------------------------------- the read loop

  /** Calling for at most one callback, then for the rest, unless that one threw. */
  lemma UntilThrowStep(a: seq<Event>, b: seq<Event>, throws: Event -> bool)
    requires |a| <= 1
    ensures UntilThrow(a + b, throws) == if |a| == 1 && throws(a[0]) then a else a + UntilThrow(b, throws)
  {
    if |a| == 1 {
      assert (a + b)[0] == a[0] && (a + b)[1..] == b;
    } else {
      assert a + b == b;
    }
  }

  /** Three optional invocations, called in order until one throws. */
  lemma UntilThrowThree(c1: seq<Event>, c2: seq<Event>, c3: seq<Event>, throws: Event -> bool)
    requires |c1| <= 1 && |c2| <= 1 && |c3| <= 1
    ensures UntilThrow(c1 + c2 + c3, throws) ==
      if |c1| == 1 && throws(c1[0]) then c1
      else if |c2| == 1 && throws(c2[0]) then c1 + c2
      else c1 + c2 + c3
  {
    ConcatAssociative(c1, c2, c3);
    UntilThrowStep(c1, c2 + c3, throws);
    if |c1| == 1 && throws(c1[0]) {
      // The first throws: nothing else is called.
    } else if |c2| == 1 && throws(c2[0]) {
      UntilThrowStep(c2, c3, throws);
    } else {
      UntilThrowStep(c2, c3, throws);
      UntilThrowLast(c3, throws);
    }
  }

  lemma ConcatAssociative<T>(a: seq<T>, b: seq<T>, c: seq<T>)
    ensures a + b + c == a + (b + c)
  {
  }

  /** The last optional invocation is made whether or not it throws. */
  lemma UntilThrowLast(c: seq<Event>, throws: Event -> bool)
    requires |c| <= 1
    ensures UntilThrow(c, throws) == c
  {
    if |c| == 1 {
      assert c[1..] == [];
    }
  }

  /** The callbacks of one parsed payload, called in order until one throws. */
  method DispatchPayload(parsed: Json, throws: Event -> bool) returns (fired: seq<Event>)
    ensures fired == Dispatch(parsed, throws)
  {
    var response := Get(parsed, "response");
    var sources := Get(parsed, "sources");
    var error := Get(parsed, "error");
    ghost var c1 := if TruthyOpt(response) then [OnChunk(response.value)] else [];
    ghost var c2 := if TruthyOpt(sources) then [OnSources(sources.value)] else [];
    ghost var c3 := if TruthyOpt(error) then [OnError(error.value)] else [];
    UntilThrowThree(c1, c2, c3, throws);

    fired := [];
    var threw := false;
    if TruthyOpt(response) {
      fired := fired + [OnChunk(response.value)];
      threw := throws(OnChunk(response.value));
    }
    assert fired == c1 && (threw <==> |c1| == 1 && throws(c1[0]));
    if !threw && TruthyOpt(sources) {
      fired := fired + [OnSources(sources.value)];
      threw := throws(OnSources(sources.value));
    }
    assert !threw ==> fired == c1 + c2 && !(|c2| == 1 && throws(c2[0]));
    assert threw ==> fired == Dispatch(parsed, throws);
    if !threw && TruthyOpt(error) {
      fired := fired + [OnError(error.value)];
    }
  }

  /**
   * The `for` loop over the lines of one chunk: the invocations it makes, and whether it met `[DONE]` (where
   * `streamChat` returns at once).
   */
  method ProcessLines(lines: seq<string>, parse: string -> Option<Json>, throws: Event -> bool)
    returns (fired: seq<Event>, stopped: bool)
    ensures Trace(fired, stopped) == Fold(lines, LineStep(parse, throws))
  {
    ghost var step := LineStep(parse, throws);
    fired := [];
    var j := 0;
    while j < |lines|
      invariant 0 <= j <= |lines|
      invariant Fold(lines[..j], step) == Trace(fired, false)
    {
      var line := lines[j];
      FoldSnoc(lines, j, step);
      assert fired + [] == fired;
      if StartsWith(line, DataPrefix) {
        var data := line[|DataPrefix|..];
        if Trim(data) == DoneMarker {
          FoldPrefixStopped(lines, j + 1, step);
          return fired, true;
        }
        var parsed := parse(data);
        if parsed.Some? {
          var more := DispatchPayload(parsed.value, throws);
          fired := fired + more;
        }
      }
      j := j + 1;
    }
    assert lines[..j] == lines;
    stopped := false;
  }

  /** Running over one more element is running over the shorter prefix, then that element. */
  lemma FoldSnoc<T>(xs: seq<T>, i: nat, step: T -> Trace)
    requires i < |xs|
    ensures Fold(xs[..i + 1], step) == Then(Fold(xs[..i], step), step(xs[i]))
  {
    var prefix := xs[..i + 1];
    assert prefix[..|prefix| - 1] == xs[..i] && prefix[|prefix| - 1] == xs[i];
  }

  /** A run whose prefix has stopped is that prefix's run. */
  lemma FoldPrefixStopped<T>(xs: seq<T>, k: nat, step: T -> Trace)
    requires k <= |xs| && Fold(xs[..k], step).stopped
    ensures Fold(xs, step) == Fold(xs[..k], step)
  {
    assert xs == xs[..k] + xs[k..];
    FoldConcat(xs[..k], xs[k..], step);
  }

  /** One more step of a run that has not stopped: it either extends the run or ends the whole of it. */
  lemma FoldAdvance<T>(xs: seq<T>, i: nat, step: T -> Trace, events: seq<Event>, more: seq<Event>, stopped: bool)
    requires i < |xs|
    requires Fold(xs[..i], step) == Trace(events, false)
    requires step(xs[i]) == Trace(more, stopped)
    ensures !stopped ==> Fold(xs[..i + 1], step) == Trace(events + more, false)
    ensures stopped ==> Fold(xs, step) == Trace(events + more, true)
  {
    FoldSnoc(xs, i, step);
    if stopped {
      FoldPrefixStopped(xs, i + 1, step);
    }
  }

  /** `streamChat`'s response handling: the callback invocations, in the order they happen. */
  method StreamChat(body: Option<seq<string>>, parse: string -> Option<Json>, throws: Event -> bool)
    returns (events: seq<Event>)
    ensures events == StreamTrace(body, parse, throws).events
  {
    events := [];
    if body.None? {
      return;
    }
    var received := body.value;
    ghost var chunks := received + [""];
    ghost var step := ChunkStep(parse, throws);
    var i := 0;
    var done := false;
    while !done
      invariant 0 <= i <= |received| + 1
      invariant done <==> i == |received| + 1
      invariant Fold(chunks[..i], step) == Trace(events, false)
      decreases |received| + 1 - i
    {
      done := i == |received|;
      var chunk := if done then "" else received[i];
      var fired, stopped := ProcessLines(Split(chunk, '\n'), parse, throws);
      FoldAdvance(chunks, i, step, events, fired, stopped);
      events := events + fired;
      if stopped {
        return;
      }
      i := i + 1;
    }
    assert chunks[..i] == chunks;
  }

  // ---------------------------------------------------------------- properties of the stream

  /** Without a response body no callback is ever called. */
  lemma NoBodyNoCallbacks(parse: string -> Option<Json>, throws: Event -> bool)
    ensures StreamTrace(None, parse, throws) == Silent
  {
  }

  /** The final `done` read adds nothing. */
  lemma FinalReadSilent(received: seq<string>, parse: string -> Option<Json>, throws: Event -> bool)
    ensures StreamTrace(Some(received), parse, throws) == Fold(received, ChunkStep(parse, throws))
  {
    var cs := ChunkStep(parse, throws);
    assert Split("", '\n') == [""];
    assert LineTrace("", parse, throws) == Silent;
    assert cs("") == Silent;
    FoldSkip(received, "", [], cs);
    assert received + [""] + [] == received + [""];
    assert received + [] == received;
  }

  /** A line that does not begin with exactly `data: ` is ignored wherever it appears. */
  lemma NonDataLineIgnored(a: seq<string>, line: string, b: seq<string>,
                           parse: string -> Option<Json>, throws: Event -> bool)
    requires !StartsWith(line, DataPrefix)
    ensures Fold(a + [line] + b, LineStep(parse, throws)) == Fold(a + b, LineStep(parse, throws))
  {
    FoldSkip(a, line, b, LineStep(parse, throws));
  }

  /** A payload that does not parse is skipped, and processing continues with the next line. */
  lemma UnparsableLineIgnored(a: seq<string>, data: string, b: seq<string>,
                              parse: string -> Option<Json>, throws: Event -> bool)
    requires parse(data).None? && Trim(data) != DoneMarker
    ensures Fold(a + [DataPrefix + data] + b, LineStep(parse, throws)) == Fold(a + b, LineStep(parse, throws))
  {
    var line := DataPrefix + data;
    assert line[|DataPrefix|..] == data;
    assert LineStep(parse, throws)(line) == Silent;
    FoldSkip(a, line, b, LineStep(parse, throws));
  }

  /** A `[DONE]` line ends the chunk: no later line produces a callback. */
  lemma DoneEndsLines(a: seq<string>, line: string, b: seq<string>,
                      parse: string -> Option<Json>, throws: Event -> bool)
    requires IsDoneLine(line)
    ensures Fold(a + [line] + b, LineStep(parse, throws)) == Then(Fold(a, LineStep(parse, throws)), Trace([], true))
  {
    FoldStops(a, line, b, LineStep(parse, throws));
  }

  /** A chunk that ends the stream ends it for good: no later read produces a callback. */
  lemma DoneEndsReads(a: seq<string>, chunk: string, b: seq<string>,
                      parse: string -> Option<Json>, throws: Event -> bool)
    requires ChunkTrace(chunk, parse, throws).stopped
    ensures Fold(a + [chunk] + b, ChunkStep(parse, throws)) ==
      Then(Fold(a, ChunkStep(parse, throws)), ChunkTrace(chunk, parse, throws))
  {
    FoldStops(a, chunk, b, ChunkStep(parse, throws));
  }

  /** Reads are handled in order: the invocations of `a + b` are those of `a` followed by those of `b`. */
  lemma ReadsInOrder(a: seq<string>, b: seq<string>, parse: string -> Option<Json>, throws: Event -> bool)
    requires !Fold(a, ChunkStep(parse, throws)).stopped
    ensures Fold(a + b, ChunkStep(parse, throws)).events ==
      Fold(a, ChunkStep(parse, throws)).events + Fold(b, ChunkStep(parse, throws)).events
  {
    FoldConcat(a, b, ChunkStep(parse, throws));
  }

  /** A stream without any `[DONE]` line runs to the end of its input and returns normally. */
  lemma WithoutDoneRunsToEnd(lines: seq<string>, parse: string -> Option<Json>, throws: Event -> bool)
    requires forall i :: 0 <= i < |lines| ==> !IsDoneLine(lines[i])
    ensures !Fold(lines, LineStep(parse, throws)).stopped
  {
    FoldNeverStops(lines, LineStep(parse, throws));
  }

  /** An empty `response` string fires no `onChunk`. */
  lemma EmptyResponseFiresNothing(fields: map<string, Json>, throws: Event -> bool)
    requires "response" in fields && fields["response"] == JStr("")
    ensures forall e :: e in Dispatch(JObj(fields), throws) ==> !e.OnChunk?
  {
  }

  /** With callbacks that do not throw, a payload fires `onChunk`, `onSources`, `onError` independently, in that order. */
  lemma DispatchIndependent(parsed: Json, throws: Event -> bool)
    requires forall e :: !throws(e)
    ensures Dispatch(parsed, throws) == Candidates(parsed)
    ensures OnError(Get(parsed, "error").GetOr(JNull)) in Dispatch(parsed, throws) <==> TruthyOpt(Get(parsed, "error"))
  {
  }

  /**
   * Each read is split by itself, so a `data: ` line cut in two by the transport is lost: the halves "da" and
   * "ta: <payload>" start no payload, while the same line in one read is dispatched.
   */
  lemma SplitLineNotReassembled(payload: string, parse: string -> Option<Json>, throws: Event -> bool)
    requires '\n' !in payload
    ensures Fold(["da", "ta: " + payload], ChunkStep(parse, throws)) == Silent
    ensures Trim(payload) != DoneMarker && parse(payload).Some? ==>
      Fold([DataPrefix + payload], ChunkStep(parse, throws)) == Trace(Dispatch(parse(payload).value, throws), false)
  {
    HalvesSilent(payload, parse, throws);
    WholeLineDispatched(payload, parse, throws);
  }

  /** Each half of a `data: ` line cut after "da" is a line of its own that is not a `data: ` line. */
  lemma HalvesSilent(payload: string, parse: string -> Option<Json>, throws: Event -> bool)
    requires '\n' !in payload
    ensures Fold(["da", "ta: " + payload], ChunkStep(parse, throws)) == Silent
  {
    var cs := ChunkStep(parse, throws);
    var ls := LineStep(parse, throws);
    var second := "ta: " + payload;
    SplitNoSeparator("da", '\n');
    SplitNoSeparator(second, '\n');
    assert ls(second) == Silent by { assert second[0] != DataPrefix[0]; }
    FoldOne("da", ls);
    FoldOne(second, ls);
    FoldOne("da", cs);
    FoldTwo("da", second, cs);
  }

  /** The same line in one read is dispatched. */
  lemma WholeLineDispatched(payload: string, parse: string -> Option<Json>, throws: Event -> bool)
    requires '\n' !in payload
    ensures Trim(payload) != DoneMarker && parse(payload).Some? ==>
      Fold([DataPrefix + payload], ChunkStep(parse, throws)) == Trace(Dispatch(parse(payload).value, throws), false)
  {
    var whole := DataPrefix + payload;
    SplitNoSeparator(whole, '\n');
    assert whole[|DataPrefix|..] == payload;
    FoldOne(whole, LineStep(parse, throws));
    FoldOne(whole, ChunkStep(parse, throws));
  }

  /** Running over one element is that element's step. */
  lemma FoldOne<T>(x: T, step: T -> Trace)
    ensures Fold([x], step) == step(x)
  {
    var xs := [x];
    assert xs[..0] == [];
    assert [] + step(x).events == step(x).events;
  }

  /** Running over two elements is the first's run, then the second's step. */
  lemma FoldTwo<T>(x: T, y: T, step: T -> Trace)
    ensures Fold([x, y], step) == Then(Fold([x], step), step(y))
  {
    var xs := [x, y];
    assert xs[..1] == [x];
  }

  /** A chunk with no `data: ` line at all fires nothing. */
  lemma {:induction false} AllLinesSilent(lines: seq<string>, parse: string -> Option<Json>, throws: Event -> bool)
    requires forall i :: 0 <= i < |lines| ==> !StartsWith(lines[i], DataPrefix)
    ensures Fold(lines, LineStep(parse, throws)) == Silent
    decreases |lines|
  {
    if |lines| > 0 {
      AllLinesSilent(lines[..|lines| - 1], parse, throws);
    }
  }

  // ---------------------------------------------------------------- the request

  /** The POST `streamChat` makes; the `mode` its caller passes is not part of it. */
  datatype ChatRequest = ChatRequest(url: string, headers: map<string, string>, body: Json)

  /**
   * The request for `message` in context `contextId`, with the auth store's in-memory `token` (`null` when
   * signed out, which the template literal prints as "null").
   */
  function BuildRequest(env: Option<string>, contextId: string, message: string, token: Option<string>)
    : (r: ChatRequest)
    ensures r.url == ApiUrl(env) + "/api/chat/" + contextId
    ensures AuthorizationHeader in r.headers && r.headers[AuthorizationHeader] == Bearer(if token.Some? then token.value else "null")
    ensures r.body.JObj? && r.body.fields.Keys == {"message"} && Get(r.body, "message") == Some(JStr(message))
  {
    ChatRequest(
      ApiUrl(env) + "/api/chat/" + contextId,
      map["Content-Type" := "application/json", "Accept" := "text/event-stream",
          AuthorizationHeader := Bearer(if token.Some? then token.value else "null")],
      JObj(map["message" := JStr(message)]))
  }
}
