/** The guest's output frames and the host's decoder, over decoded JSON objects. */
module StreamCodec {
  import opened Seqs

  datatype Response = Response(exitCode: int, stdout: string, stderr: string, error: string)

  /** One decoded JSON value from the guest: an output chunk, an exit frame (fields may be absent), a payload without a
      type field, a chunk whose data cannot be decoded, a frame of unknown type, or bytes that are not JSON. */
  datatype Frame =
    | Chunk(isStdout: bool, data: string)
    | ExitFrame(code: Option<int>, error: Option<string>)
    | Legacy(response: Response)
    | BadData
    | UnknownType
    | NotJson

  datatype DecodeError = EndOfInput | Malformed | UnknownFrame

  /** One call of OnStdout or OnStderr. */
  datatype Call = Call(isStdout: bool, data: string)

  // ---- What a frame sequence says ----

  /** The non-empty chunks, in order. */
  function Calls(frames: seq<Frame>): seq<Call> {
    if frames == [] then []
    else
      var last := frames[|frames| - 1];
      Calls(frames[..|frames| - 1]) + (if last.Chunk? && last.data != "" then [Call(last.isStdout, last.data)] else [])
  }

  /** The text one stream carries. */
  function TextOfCalls(calls: seq<Call>, isStdout: bool): string {
    if calls == [] then ""
    else
      var last := calls[|calls| - 1];
      TextOfCalls(calls[..|calls| - 1], isStdout) + (if last.isStdout == isStdout then last.data else "")
  }

  lemma {:induction false} CallsSnoc(frames: seq<Frame>, f: Frame)
    ensures Calls(frames + [f]) == Calls(frames) + (if f.Chunk? && f.data != "" then [Call(f.isStdout, f.data)] else [])
  {
    assert (frames + [f])[..|frames|] == frames;
  }

  lemma {:induction false} TextOfCallsSnoc(calls: seq<Call>, c: Call, isStdout: bool)
    ensures TextOfCalls(calls + [c], isStdout)
              == TextOfCalls(calls, isStdout) + (if c.isStdout == isStdout then c.data else "")
  {
    assert (calls + [c])[..|calls|] == calls;
  }

  /** How far the decoder reads: up to the first frame that is not a chunk. */
  function Body(frames: seq<Frame>): (n: nat)
    ensures n <= |frames|
  {
    if frames == [] || !frames[0].Chunk? then 0 else 1 + Body(frames[1..])
  }

  lemma {:induction false} BodyIsChunks(frames: seq<Frame>)
    ensures forall i :: 0 <= i < Body(frames) ==> frames[i].Chunk?
    ensures Body(frames) < |frames| ==> !frames[Body(frames)].Chunk?
  {
    if frames != [] && frames[0].Chunk? {
      BodyIsChunks(frames[1..]);
      forall i | 0 <= i < Body(frames) ensures frames[i].Chunk? {
        if i > 0 {
          assert frames[i] == frames[1..][i - 1];
        }
      }
    }
  }

  lemma BodyUnique(frames: seq<Frame>, n: nat)
    requires n <= |frames| && (forall i :: 0 <= i < n ==> frames[i].Chunk?) && (n < |frames| ==> !frames[n].Chunk?)
    ensures n == Body(frames)
  {
    BodyIsChunks(frames);
  }

  /** The callbacks a frame sequence causes: its chunks up to the first frame that is not one. */
  function Heard(frames: seq<Frame>): seq<Call> {
    Calls(frames[..Body(frames)])
  }

  /** What a frame sequence means to the host: the first frame that is not a chunk decides, and an exit frame stands for
      everything heard before it. */
  function Meaning(frames: seq<Frame>): Result<Response, DecodeError> {
    if Body(frames) == |frames| then Err(EndOfInput)
    else FrameMeaning(frames[Body(frames)], TextOfCalls(Heard(frames), true), TextOfCalls(Heard(frames), false))
  }

  /** Absent fields of an exit frame read as zero and empty. */
  function FrameMeaning(frame: Frame, stdout: string, stderr: string): Result<Response, DecodeError> {
    match frame
    case ExitFrame(code, error) =>
      Ok(Response(if code.Some? then code.value else 0, stdout, stderr, if error.Some? then error.value else ""))
    case Legacy(response) => Ok(response)
    case UnknownType => Err(UnknownFrame)
    case _ => Err(Malformed)
  }

  lemma BodyEnds(frames: seq<Frame>, n: nat)
    requires n < |frames| && (forall i :: 0 <= i < n ==> frames[i].Chunk?) && !frames[n].Chunk?
    ensures var calls := Calls(frames[..n]);
            && Heard(frames) == calls
            && Meaning(frames) == FrameMeaning(frames[n], TextOfCalls(calls, true), TextOfCalls(calls, false))
  {
    BodyUnique(frames, n);
  }

  lemma BodyNeverEnds(frames: seq<Frame>)
    requires forall i :: 0 <= i < |frames| ==> frames[i].Chunk?
    ensures Heard(frames) == Calls(frames[..|frames|]) && Meaning(frames) == Err(EndOfInput)
  {
    BodyUnique(frames, |frames|);
  }

  /** Each way a stream can end, spelled out: the first frame that is not a chunk decides, with the chunks before
      it; what follows is never read. */
  lemma FirstOtherFrameDecides(frames: seq<Frame>, n: nat)
    requires n < |frames| && (forall i :: 0 <= i < n ==> frames[i].Chunk?) && !frames[n].Chunk?
    ensures var calls := Calls(frames[..n]);
            && Heard(frames) == calls
            && match frames[n]
               case ExitFrame(code, error) =>
                 Meaning(frames) == Ok(Response(if code.Some? then code.value else 0, TextOfCalls(calls, true),
                                                TextOfCalls(calls, false),
                                                if error.Some? then error.value else ""))
               case Legacy(response) => Meaning(frames) == Ok(response)
               case UnknownType => Meaning(frames) == Err(UnknownFrame)
               case BadData => Meaning(frames) == Err(Malformed)
               case NotJson => Meaning(frames) == Err(Malformed)
  {
    BodyEnds(frames, n);
  }

  /** Without such a frame the stream ends too early, whatever was reported. */
  lemma ChunksAloneAreNoAnswer(chunks: seq<Frame>)
    requires forall i :: 0 <= i < |chunks| ==> chunks[i].Chunk?
    ensures Heard(chunks) == Calls(chunks) && Meaning(chunks) == Err(EndOfInput)
  {
    BodyNeverEnds(chunks);
    assert chunks[..|chunks|] == chunks;
  }

  /** The callbacks and the buffered text after one chunk more: an empty one is not reported. */
  lemma HeardChunk(frames: seq<Frame>, n: nat)
    requires n < |frames| && frames[n].Chunk?
    ensures var calls, c := Calls(frames[..n]), frames[n];
            var after := Calls(frames[..n + 1]);
            && after == (if c.data == "" then calls else calls + [Call(c.isStdout, c.data)])
            && TextOfCalls(after, true) == (if c.isStdout then TextOfCalls(calls, true) + c.data
                                            else TextOfCalls(calls, true))
            && TextOfCalls(after, false) == (if c.isStdout then TextOfCalls(calls, false)
                                             else TextOfCalls(calls, false) + c.data)
  {
    var calls, call := Calls(frames[..n]), Call(frames[n].isStdout, frames[n].data);
    assert frames[..n + 1] == frames[..n] + [frames[n]];
    CallsSnoc(frames[..n], frames[n]);
    TextOfCallsSnoc(calls, call, true);
    TextOfCallsSnoc(calls, call, false);
  }

  /** The decoder's variables after `n` chunks. */
  ghost predicate Buffered(frames: seq<Frame>, n: nat, calls: seq<Call>, stdout: string, stderr: string)
    requires n <= |frames|
  {
    && calls == Calls(frames[..n])
    && stdout == TextOfCalls(Calls(frames[..n]), true) && stderr == TextOfCalls(Calls(frames[..n]), false)
  }

  lemma BufferedNext(frames: seq<Frame>, n: nat, calls: seq<Call>, stdout: string, stderr: string)
    requires n < |frames| && frames[n].Chunk? && Buffered(frames, n, calls, stdout, stderr)
    ensures var c := frames[n];
            if c.data == "" then Buffered(frames, n + 1, calls, stdout, stderr)
            else if c.isStdout then Buffered(frames, n + 1, calls + [Call(true, c.data)], stdout + c.data, stderr)
            else Buffered(frames, n + 1, calls + [Call(false, c.data)], stdout, stderr + c.data)
  {
    HeardChunk(frames, n);
  }

  /** The decoder's loop over chunks: each is buffered and, unless it is empty, reported. */
  method ReadChunks(frames: seq<Frame>) returns (n: nat, calls: seq<Call>, stdout: string, stderr: string)
    ensures n <= |frames| && (forall i :: 0 <= i < n ==> frames[i].Chunk?) && (n < |frames| ==> !frames[n].Chunk?)
    ensures Buffered(frames, n, calls, stdout, stderr)
  {
    n, calls, stdout, stderr := 0, [], "", "";
    while n < |frames| && frames[n].Chunk?
      invariant 0 <= n <= |frames|
      invariant forall i :: 0 <= i < n ==> frames[i].Chunk?
      invariant Buffered(frames, n, calls, stdout, stderr)
    {
      BufferedNext(frames, n, calls, stdout, stderr);
      var chunk := frames[n];
      if chunk.data != "" {
        if chunk.isStdout {
          stdout := stdout + chunk.data;
        } else {
          stderr := stderr + chunk.data;
        }
        calls := calls + [Call(chunk.isStdout, chunk.data)];
      }
      n := n + 1;
    }
  }

  /** The decoder ends at the first frame that is not a chunk. A response carries exactly the text the callbacks
      reported; every other end is an error. */
  method DecodeStreamResponse(frames: seq<Frame>) returns (result: Result<Response, DecodeError>, calls: seq<Call>)
    ensures calls == Heard(frames) && result == Meaning(frames)
  {
    var n, stdout, stderr;
    n, calls, stdout, stderr := ReadChunks(frames);
    if n == |frames| {
      BodyNeverEnds(frames);
      return Err(EndOfInput), calls;
    }
    BodyEnds(frames, n);
    match frames[n] {
      case ExitFrame(code, error) =>
        result := Ok(Response(if code.Some? then code.value else 0, stdout, stderr,
                              if error.Some? then error.value else ""));
      case Legacy(response) => result := Ok(response);
      case UnknownType => result := Err(UnknownFrame);
      case BadData => result := Err(Malformed);
      case NotJson => result := Err(Malformed);
    }
  }

  // ---- The guest's two copy loops ----

  /** The frames one copy loop sends for the chunks it reads; an empty write sends nothing. */
  function Sent(chunks: seq<string>, isStdout: bool): seq<Frame> {
    if chunks == [] then []
    else
      var last := chunks[|chunks| - 1];
      Sent(chunks[..|chunks| - 1], isStdout) + (if last == "" then [] else [Chunk(isStdout, last)])
  }

  /** `c` is some interleaving of `a` and `b`: the mutex of the frame sender decides only the order. */
  ghost predicate Interleaves<T>(a: seq<T>, b: seq<T>, c: seq<T>)
    decreases |c|
  {
    if c == [] then a == [] && b == []
    else
      var last, rest := c[|c| - 1], c[..|c| - 1];
      || (a != [] && a[|a| - 1] == last && Interleaves(a[..|a| - 1], b, rest))
      || (b != [] && b[|b| - 1] == last && Interleaves(a, b[..|b| - 1], rest))
  }

  ghost predicate OfStream(frames: seq<Frame>, isStdout: bool) {
    forall i :: 0 <= i < |frames| ==> frames[i].Chunk? && frames[i].isStdout == isStdout && frames[i].data != ""
  }

  /** The text of one stream, read off the frames directly. */
  function FrameText(frames: seq<Frame>, isStdout: bool): string {
    if frames == [] then ""
    else
      var last, text := frames[|frames| - 1], FrameText(frames[..|frames| - 1], isStdout);
      if last.Chunk? && last.isStdout == isStdout then text + last.data else text
  }

  lemma {:induction false} FrameTextIsReported(frames: seq<Frame>, isStdout: bool)
    ensures TextOfCalls(Calls(frames), isStdout) == FrameText(frames, isStdout)
  {
    if frames != [] {
      var init, last := frames[..|frames| - 1], frames[|frames| - 1];
      FrameTextIsReported(init, isStdout);
      if last.Chunk? && last.data != "" {
        TextOfCallsSnoc(Calls(init), Call(last.isStdout, last.data), isStdout);
      } else {
        assert Calls(frames) == Calls(init);
      }
    }
  }

  lemma {:induction false} OneMoreFrame(frames: seq<Frame>, f: Frame, isStdout: bool)
    ensures var text := FrameText(frames, isStdout);
            FrameText(frames + [f], isStdout) == if f.Chunk? && f.isStdout == isStdout then text + f.data else text
  {
    assert (frames + [f])[..|frames|] == frames;
  }

  lemma {:induction false} SentText(chunks: seq<string>, isStdout: bool)
    ensures OfStream(Sent(chunks, isStdout), isStdout)
    ensures FrameText(Sent(chunks, isStdout), isStdout) == Flatten(chunks)
  {
    if chunks != [] {
      var init, last := chunks[..|chunks| - 1], chunks[|chunks| - 1];
      SentText(init, isStdout);
      if last == "" {
        assert Sent(chunks, isStdout) == Sent(init, isStdout);
        assert Flatten(chunks) == Flatten(init);
      } else {
        OneMoreFrame(Sent(init, isStdout), Chunk(isStdout, last), isStdout);
      }
    }
  }

  ghost predicate SameText(a: seq<Frame>, b: seq<Frame>, c: seq<Frame>) {
    && FrameText(c, true) == FrameText(a, true) && FrameText(c, false) == FrameText(b, false)
    && forall i :: 0 <= i < |c| ==> c[i].Chunk?
  }

  lemma {:induction false} SameTextSnoc(a: seq<Frame>, b: seq<Frame>, c: seq<Frame>, f: Frame)
    requires SameText(a, b, c) && f.Chunk?
    ensures if f.isStdout then SameText(a + [f], b, c + [f]) else SameText(a, b + [f], c + [f])
  {
    OneMoreFrame(c, f, true);
    OneMoreFrame(c, f, false);
    if f.isStdout {
      OneMoreFrame(a, f, true);
    } else {
      OneMoreFrame(b, f, false);
    }
    forall i | 0 <= i < |c + [f]| ensures (c + [f])[i].Chunk? {
      assert i < |c| ==> (c + [f])[i] == c[i];
    }
  }

  /** Each stream's text is the same in every interleaving. */
  lemma {:induction false} InterleavingText(a: seq<Frame>, b: seq<Frame>, c: seq<Frame>)
    requires Interleaves(a, b, c) && OfStream(a, true) && OfStream(b, false)
    ensures SameText(a, b, c)
    decreases |c|
  {
    if c != [] {
      var last, rest := c[|c| - 1], c[..|c| - 1];
      assert c == rest + [last];
      if a != [] && a[|a| - 1] == last && Interleaves(a[..|a| - 1], b, rest) {
        var a' := a[..|a| - 1];
        assert a == a' + [last];
        InterleavingText(a', b, rest);
        SameTextSnoc(a', b, rest, last);
      } else {
        var b' := b[..|b| - 1];
        assert b == b' + [last];
        InterleavingText(a, b', rest);
        SameTextSnoc(a, b', rest, last);
      }
    }
  }

  /** Whatever the guest's two copy loops interleave and however the exit frame is filled in, the frames before it are
      all heard, and the response is the guest's stdout and stderr with the exit frame's code and error. */
  lemma {:induction false} GuestOutputSurvivesInterleaving(out: seq<string>, err: seq<string>, frames: seq<Frame>,
                                                           code: Option<int>, error: Option<string>)
    requires Interleaves(Sent(out, true), Sent(err, false), frames)
    ensures var all := frames + [ExitFrame(code, error)];
            && Heard(all) == Calls(frames)
            && TextOfCalls(Heard(all), true) == Flatten(out) && TextOfCalls(Heard(all), false) == Flatten(err)
            && Meaning(all) == Ok(Response(if code.Some? then code.value else 0, Flatten(out), Flatten(err),
                                           if error.Some? then error.value else ""))
  {
    var all := frames + [ExitFrame(code, error)];
    SentText(out, true);
    SentText(err, false);
    InterleavingText(Sent(out, true), Sent(err, false), frames);
    FrameTextIsReported(frames, true);
    FrameTextIsReported(frames, false);
    BodyUnique(all, |frames|);
    assert all[..|frames|] == frames;
  }
}
