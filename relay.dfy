/**
 * The streaming path (`handle_stream_chat`): a fold over the provider's
 * chunks that collects the text and one content event per fragment, then a
 * final `done` event; any exception replaces all of it with one `error` event.
 */
module Relay {
  import opened Wrappers
  import opened Json
  import opened Responses
  import opened Sse

  /** What the provider's streaming call does: it delivers `chunks` in order
      (each the choice's delta content, possibly None) and then either ends
      (`failure` is None) or raises an exception whose text is `failure`.
      A failure of the call itself is a failure after no chunks. */
  datatype ChunkStream = ChunkStream(chunks: seq<Option<string>>, failure: Option<string>)

  /** The non-None delta contents, in chunk order. */
  function Fragments(chunks: seq<Option<string>>): (fragments: seq<string>)
    ensures |fragments| <= |chunks|
    ensures forall i :: 0 <= i < |fragments| ==> Some(fragments[i]) in chunks
    ensures (forall i :: 0 <= i < |chunks| ==> chunks[i].None?) ==> fragments == []
  {
    if chunks == [] then []
    else
      Fragments(chunks[..|chunks| - 1]) +
        match chunks[|chunks| - 1]
        case Some(c) => [c]
        case None => []
  }

  /** The concatenation of a sequence of strings. */
  function Join(parts: seq<string>): string {
    if parts == [] then "" else Join(parts[..|parts| - 1]) + parts[|parts| - 1]
  }

  /** One content frame per fragment, in the same order. */
  function ContentFrames(fragments: seq<string>): (fs: seq<Frame>)
    ensures |fs| == |fragments|
    ensures forall i :: 0 <= i < |fs| ==> fs[i] == Content(fragments[i])
  {
    if fragments == [] then []
    else ContentFrames(fragments[..|fragments| - 1]) + [Content(fragments[|fragments| - 1])]
  }

  /** The text a client assembles from the content frames it received. */
  function Transcript(frames: seq<Frame>): string {
    if frames == [] then ""
    else
      Transcript(frames[..|frames| - 1]) +
        match frames[|frames| - 1]
        case Content(text) => text
        case _ => ""
  }

  /** The frames the relay sends for a provider stream. */
  function StreamFrames(source: ChunkStream): (fs: seq<Frame>)
    ensures source.failure.Some? ==> fs == [Error(source.failure.value)]
    ensures source.failure.None? ==>
      && |fs| >= 1 && fs[|fs| - 1].Done?
      && forall i :: 0 <= i < |fs| - 1 ==> fs[i].Content?
  {
    if source.failure.Some? then [Error(source.failure.value)]
    else
      var fragments := Fragments(source.chunks);
      ContentFrames(fragments) + [Done(Join(fragments))]
  }

  /** The reply of the relay: the rendered frames, 200 on success, 500 on failure. */
  function StreamReply(dumps: Value -> string, source: ChunkStream): (r: Reply)
    ensures r.body.TextBody?
    ensures r.status == 200 <==> source.failure.None?
    ensures r.status == 500 <==> source.failure.Some?
  {
    Reply(if source.failure.None? then 200 else 500, TextBody(Render(dumps, StreamFrames(source))))
  }

  /** `handle_stream_chat`: builds `full_response` and the response text
      chunk by chunk, then appends the final frame. */
  method StreamChat(dumps: Value -> string, source: ChunkStream) returns (reply: Reply)
    ensures reply == StreamReply(dumps, source)
  {
    var fullResponse := "";
    var responseText := "";
    var i := 0;
    while i < |source.chunks|
      invariant i <= |source.chunks|
      invariant fullResponse == Join(Fragments(source.chunks[..i]))
      invariant responseText == Render(dumps, ContentFrames(Fragments(source.chunks[..i])))
    {
      ghost var before := Fragments(source.chunks[..i]);
      assert source.chunks[..i + 1][..i] == source.chunks[..i];
      match source.chunks[i] {
        case Some(content) =>
          assert Fragments(source.chunks[..i + 1]) == before + [content];
          assert (before + [content])[..|before|] == before;
          RenderSnoc(dumps, ContentFrames(before), Content(content));
          fullResponse := fullResponse + content;
          responseText := responseText + Event(dumps(FrameObject(Content(content))));
        case None =>
          assert Fragments(source.chunks[..i + 1]) == before;
      }
      i := i + 1;
    }
    assert source.chunks[..i] == source.chunks;
    if source.failure.Some? {
      reply := Reply(500, TextBody(Event(dumps(FrameObject(Error(source.failure.value))))));
      return;
    }
    RenderSnoc(dumps, ContentFrames(Fragments(source.chunks)), Done(fullResponse));
    responseText := responseText + Event(dumps(FrameObject(Done(fullResponse))));
    reply := Reply(200, TextBody(responseText));
  }

  /** Fragments distributes over concatenation of chunk sequences. */
  lemma {:induction false} FragmentsAppend(a: seq<Option<string>>, b: seq<Option<string>>)
    ensures Fragments(a + b) == Fragments(a) + Fragments(b)
    decreases |b|
  {
    if b == [] {
      assert a + b == a;
    } else {
      var b' := b[..|b| - 1];
      assert (a + b)[..|a + b| - 1] == a + b';
      FragmentsAppend(a, b');
    }
  }

  /** A chunk with content contributes exactly its text; a None chunk
      contributes nothing. */
  lemma FragmentsOfOne(c: Option<string>)
    ensures Fragments([c]) == if c.Some? then [c.value] else []
  {
  }

  lemma {:induction false} JoinAppend(a: seq<string>, b: seq<string>)
    ensures Join(a + b) == Join(a) + Join(b)
    decreases |b|
  {
    if b == [] {
      assert a + b == a;
    } else {
      var b' := b[..|b| - 1];
      assert (a + b)[..|a + b| - 1] == a + b';
      JoinAppend(a, b');
    }
  }

  /** The text carried by the content frames is the joined fragments. */
  lemma {:induction false} TranscriptOfContent(fragments: seq<string>)
    ensures Transcript(ContentFrames(fragments)) == Join(fragments)
    decreases |fragments|
  {
    if fragments != [] {
      var fs := ContentFrames(fragments);
      assert fs[..|fs| - 1] == ContentFrames(fragments[..|fragments| - 1]);
      TranscriptOfContent(fragments[..|fragments| - 1]);
    }
  }

  /** A stream that ends normally: one content frame per non-None chunk, in
      order, and then one `done` frame whose `full_response` is the text of
      all content frames before it. */
  lemma SuccessfulStream(source: ChunkStream)
    requires source.failure.None?
    ensures var fs := StreamFrames(source);
      && |fs| == |Fragments(source.chunks)| + 1
      && (forall i :: 0 <= i < |fs| - 1 ==> fs[i] == Content(Fragments(source.chunks)[i]))
      && fs[|fs| - 1] == Done(Transcript(fs[..|fs| - 1]))
  {
    var fragments := Fragments(source.chunks);
    var fs := StreamFrames(source);
    assert fs[..|fs| - 1] == ContentFrames(fragments);
    TranscriptOfContent(fragments);
  }

  /** What a client decodes from the streamed reply: on success the content
      frames and the `done` frame with the whole text, on failure the `error`
      frame alone, whatever chunks came before the failure. */
  lemma ClientView(loads: string -> Option<Value>, dumps: Value -> string, source: ChunkStream)
    requires Inverts(loads, dumps) && OneLine(dumps)
    ensures source.failure.None? ==>
      Decode(loads, StreamReply(dumps, source).body.text) ==
        Some(ContentFrames(Fragments(source.chunks)) + [Done(Join(Fragments(source.chunks)))])
    ensures source.failure.Some? ==>
      Decode(loads, StreamReply(dumps, source).body.text) == Some([Error(source.failure.value)])
  {
    DecodeRender(loads, dumps, StreamFrames(source));
  }

  /** Two fragments, "he" and "llo": two content frames and "hello" at the end. */
  lemma HelloStream()
    ensures StreamFrames(ChunkStream([Some("he"), None, Some("llo")], None)) ==
      [Content("he"), Content("llo"), Done("hello")]
  {
    var chunks := [Some("he"), None, Some("llo")];
    assert chunks[..2][..1] == [Some("he")];
    assert chunks[..2] == [Some("he"), None];
    FragmentsOfOne(Some("he"));
    assert Fragments(chunks) == ["he", "llo"];
    assert ["he", "llo"][..1] == ["he"];
    assert ["he"][..0] == [];
    assert Join(["he", "llo"]) == "hello";
    assert ContentFrames(["he", "llo"]) == [Content("he"), Content("llo")];
  }

  /** A failure after a fragment was read: only the error frame is sent. */
  lemma FailureAfterFragment()
    ensures StreamFrames(ChunkStream([Some("he")], Some("timeout"))) == [Error("timeout")]
  {
  }
}
