/**
 * Server-Sent Events as the stream handler writes them: each frame is a small
 * JSON object, encoded by an abstract `dumps`, and sent as one
 * `data: <json>\n\n` event. The module also gives the client's side, a
 * decoder that splits the text back into events and frames, and proves that
 * decoding what the handler renders gives back the frames it rendered.
 */
module Sse {
  import opened Wrappers
  import opened Json

  /** The three kinds of frame the relay sends. */
  datatype Frame =
    | Content(text: string)          // one fragment, `done` false
    | Done(fullResponse: string)     // the final frame, `done` true
    | Error(message: string)         // the only frame of a failed stream

  /** The dictionary handed to `json.dumps` for each frame. */
  function FrameObject(f: Frame): (v: Value)
    ensures v.Obj? && "type" in v.fields && "done" in v.fields
    ensures v.fields["done"] == Bool(!f.Content?)
  {
    match f
    case Content(text) =>
      Obj(map["type" := Str("content"), "content" := Str(text), "done" := Bool(false)])
    case Done(full) =>
      Obj(map["type" := Str("done"), "content" := Str(""), "done" := Bool(true), "full_response" := Str(full)])
    case Error(message) =>
      Obj(map["type" := Str("error"), "error" := Str(message), "done" := Bool(true)])
  }

  /** How a client reads a decoded object back as a frame. */
  function FrameOf(v: Value): (r: Option<Frame>)
    ensures forall f :: v == FrameObject(f) ==> r == Some(f)
  {
    if !v.Obj? || "type" !in v.fields || "done" !in v.fields then None
    else
      var m := v.fields;
      if m["type"] == Str("content") && m["done"] == Bool(false) && "content" in m && m["content"].Str? then
        Some(Content(m["content"].s))
      else if m["type"] == Str("done") && m["done"] == Bool(true) && "full_response" in m && m["full_response"].Str? then
        Some(Done(m["full_response"].s))
      else if m["type"] == Str("error") && m["done"] == Bool(true) && "error" in m && m["error"].Str? then
        Some(Error(m["error"].s))
      else None
  }

  const Prefix: string := "data: "

  /** One event: `f"data: {payload}\n\n"`. */
  function Event(payload: string): (e: string)
    ensures |e| == |Prefix| + |payload| + 2
    ensures e[..|Prefix|] == Prefix && e[|Prefix|..|Prefix| + |payload|] == payload
    ensures e[|e| - 2..] == "\n\n"
  {
    Prefix + payload + "\n\n"
  }

  /** The events for a sequence of payloads, one after the other. */
  function Emit(payloads: seq<string>): (s: string)
    ensures s == "" <==> payloads == []
  {
    if payloads == [] then "" else Event(payloads[0]) + Emit(payloads[1..])
  }

  /** The encoded payload of each frame, in order. */
  function Payloads(dumps: Value -> string, frames: seq<Frame>): (ps: seq<string>)
    ensures |ps| == |frames|
  {
    if frames == [] then [] else [dumps(FrameObject(frames[0]))] + Payloads(dumps, frames[1..])
  }

  /** The text of the event stream for a sequence of frames. */
  function Render(dumps: Value -> string, frames: seq<Frame>): (s: string)
    ensures s == "" <==> frames == []
  {
    Emit(Payloads(dumps, frames))
  }

  /** A Python `json.dumps` with its default separators escapes control
      characters, so no payload has a raw line break in it. */
  ghost predicate OneLine(dumps: Value -> string) {
    forall v :: '\n' !in dumps(v)
  }

  /** `loads` undoes `dumps` on the frame objects the relay encodes (their
      values are strings and booleans, which a JSON encoder writes exactly). */
  ghost predicate Inverts(loads: string -> Option<Value>, dumps: Value -> string) {
    forall f: Frame :: loads(dumps(FrameObject(f))) == Some(FrameObject(f))
  }

  /** The first line break at or after `i`, or the end of `s`. */
  function NextNewline(s: string, i: nat): (k: nat)
    requires i <= |s|
    ensures i <= k <= |s|
    ensures forall j :: i <= j < k ==> s[j] != '\n'
    ensures k < |s| ==> s[k] == '\n'
    decreases |s| - i
  {
    if i == |s| || s[i] == '\n' then i else NextNewline(s, i + 1)
  }

  /** The client's split of an event stream into payloads: each event is
      `data: `, a line, and an empty line. Anything else is rejected. */
  function SplitEvents(s: string): Option<seq<string>>
    decreases |s|
  {
    if s == [] then Some([])
    else if |s| < |Prefix| || s[..|Prefix|] != Prefix then None
    else
      var k := NextNewline(s, |Prefix|);
      if k + 1 < |s| && s[k + 1] == '\n' then
        match SplitEvents(s[k + 2..])
        case None => None
        case Some(rest) => Some([s[|Prefix|..k]] + rest)
      else None
  }

  /** Decodes each payload to a frame. */
  function DecodePayloads(loads: string -> Option<Value>, payloads: seq<string>): Option<seq<Frame>> {
    if payloads == [] then Some([])
    else
      match loads(payloads[0])
      case None => None
      case Some(v) =>
        match FrameOf(v)
        case None => None
        case Some(f) =>
          match DecodePayloads(loads, payloads[1..])
          case None => None
          case Some(rest) => Some([f] + rest)
  }

  /** What a client reads from the body of a streamed reply. */
  function Decode(loads: string -> Option<Value>, text: string): Option<seq<Frame>> {
    match SplitEvents(text)
    case None => None
    case Some(payloads) => DecodePayloads(loads, payloads)
  }

  lemma {:induction false} EmitAppend(a: seq<string>, b: seq<string>)
    ensures Emit(a + b) == Emit(a) + Emit(b)
    decreases |a|
  {
    if a == [] {
      assert a + b == b;
    } else {
      assert (a + b)[1..] == a[1..] + b;
      EmitAppend(a[1..], b);
    }
  }

  lemma {:induction false} PayloadsAppend(dumps: Value -> string, a: seq<Frame>, b: seq<Frame>)
    ensures Payloads(dumps, a + b) == Payloads(dumps, a) + Payloads(dumps, b)
    decreases |a|
  {
    if a == [] {
      assert a + b == b;
    } else {
      assert (a + b)[1..] == a[1..] + b;
      PayloadsAppend(dumps, a[1..], b);
    }
  }

  /** Appending a frame appends its event: the stream can be written
      frame by frame as the relay does. */
  lemma RenderSnoc(dumps: Value -> string, frames: seq<Frame>, f: Frame)
    ensures Render(dumps, frames + [f]) == Render(dumps, frames) + Event(dumps(FrameObject(f)))
  {
    PayloadsAppend(dumps, frames, [f]);
    EmitAppend(Payloads(dumps, frames), Payloads(dumps, [f]));
  }

  /** The client reads one event off the front of the stream. */
  lemma SplitEvent(p: string, rest: string)
    requires '\n' !in p
    ensures SplitEvents(Event(p) + rest) ==
      match SplitEvents(rest)
      case None => None
      case Some(more) => Some([p] + more)
  {
    var s := Event(p) + rest;
    var n := |Prefix|;
    assert s[..n] == Prefix;
    assert s[n + |p|] == '\n';
    var k := NextNewline(s, n);
    assert k == n + |p|;
    assert s[n..k] == p;
    assert s[k + 2..] == rest;
  }

  /** Splitting emitted events gives back their payloads. */
  lemma {:induction false} SplitEmit(payloads: seq<string>)
    requires forall i :: 0 <= i < |payloads| ==> '\n' !in payloads[i]
    ensures SplitEvents(Emit(payloads)) == Some(payloads)
    decreases |payloads|
  {
    if payloads != [] {
      SplitEmit(payloads[1..]);
      SplitEvent(payloads[0], Emit(payloads[1..]));
      assert [payloads[0]] + payloads[1..] == payloads;
    }
  }

  lemma {:induction false} PayloadsOneLine(dumps: Value -> string, frames: seq<Frame>)
    requires OneLine(dumps)
    ensures forall i :: 0 <= i < |frames| ==> '\n' !in Payloads(dumps, frames)[i]
    decreases |frames|
  {
    if frames != [] {
      PayloadsOneLine(dumps, frames[1..]);
      assert forall i :: 1 <= i < |frames| ==> Payloads(dumps, frames)[i] == Payloads(dumps, frames[1..])[i - 1];
      assert '\n' !in dumps(FrameObject(frames[0]));
    }
  }

  lemma {:induction false} DecodePayloadsInverse(loads: string -> Option<Value>, dumps: Value -> string, frames: seq<Frame>)
    requires Inverts(loads, dumps)
    ensures DecodePayloads(loads, Payloads(dumps, frames)) == Some(frames)
    decreases |frames|
  {
    if frames != [] {
      DecodePayloadsInverse(loads, dumps, frames[1..]);
      var ps := Payloads(dumps, frames);
      assert ps[1..] == Payloads(dumps, frames[1..]);
      assert loads(ps[0]) == Some(FrameObject(frames[0]));
      assert [frames[0]] + frames[1..] == frames;
    }
  }

  /** Round trip: a client decoding the rendered stream gets back exactly the
      frames that were rendered, in order. */
  lemma DecodeRender(loads: string -> Option<Value>, dumps: Value -> string, frames: seq<Frame>)
    requires Inverts(loads, dumps) && OneLine(dumps)
    ensures Decode(loads, Render(dumps, frames)) == Some(frames)
  {
    PayloadsOneLine(dumps, frames);
    SplitEmit(Payloads(dumps, frames));
    DecodePayloadsInverse(loads, dumps, frames);
  }
}
