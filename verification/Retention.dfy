/** Bounded retention of execution output and the merge of a backend's buffered result. */
module Retention {
  import opened Seqs

  function AppendRetainedOutput<T>(existing: seq<T>, chunk: seq<T>, limit: int): seq<T> {
    if limit <= 0 then []
    else if chunk == [] then
      if |existing| <= limit then existing else existing[|existing| - limit..]
    else if |chunk| >= limit then chunk[|chunk| - limit..]
    else
      var keep := limit - |chunk|;
      (if keep < |existing| then existing[|existing| - keep..] else existing) + chunk
  }

  /** What the merge does with the buffered text: append it (possibly nothing) or replace what was retained. */
  datatype Delta<T> = Append(text: seq<T>) | Replace(text: seq<T>)

  function BufferedResultDelta<T(==)>(retained: seq<T>, buffered: seq<T>, limit: int): Delta<T> {
    if buffered == [] then Append([])
    else if retained == [] then Append(buffered)
    else if IsSuffix(retained, buffered) then
      if limit > 0 && |retained| >= limit then Append([])
      else if IsPrefix(retained, buffered) then Append(buffered[|retained|..])
      else Replace(buffered)
    else if IsPrefix(retained, buffered) then Append(buffered[|retained|..])
    else Replace(buffered)
  }

  /** Retained text after the merge; a non-streaming backend's text is appended as it is. */
  function Merged<T(==)>(retained: seq<T>, buffered: seq<T>, streaming: bool, limit: int): seq<T> {
    match if streaming then BufferedResultDelta(retained, buffered, limit) else Append(buffered)
    case Append(text) => if text == [] then retained else AppendRetainedOutput(retained, text, limit)
    case Replace(text) => AppendRetainedOutput([], text, limit)
  }

  /** Text the merge emits as one output event; nothing is emitted for an empty text. */
  function Emitted<T(==)>(retained: seq<T>, buffered: seq<T>, streaming: bool, limit: int): seq<T> {
    (if streaming then BufferedResultDelta(retained, buffered, limit) else Append(buffered)).text
  }

  /** The branching append is one suffix of the concatenation, for every limit. */
  lemma AppendIsTakeLast<T>(existing: seq<T>, chunk: seq<T>, limit: int)
    ensures AppendRetainedOutput(existing, chunk, limit) == TakeLast(existing + chunk, limit)
  {
    if limit > 0 {
      var all := existing + chunk;
      if chunk == [] {
        assert all == existing;
      } else if |chunk| >= limit {
        assert all[|all| - limit..] == chunk[|chunk| - limit..];
      } else if limit - |chunk| < |existing| {
        assert all[|all| - limit..] == existing[|existing| - (limit - |chunk|)..] + chunk;
      }
    }
  }

  function Retained<T>(chunks: seq<seq<T>>, limit: int): seq<T> {
    if chunks == [] then []
    else AppendRetainedOutput(Retained(chunks[..|chunks| - 1], limit), chunks[|chunks| - 1], limit)
  }

  /** However a stream is cut into chunks, what is retained is the suffix of the whole text. */
  lemma {:induction false} RetainedIsTakeLast<T>(chunks: seq<seq<T>>, limit: int)
    ensures Retained(chunks, limit) == TakeLast(Flatten(chunks), limit)
  {
    if chunks != [] {
      var init, c := chunks[..|chunks| - 1], chunks[|chunks| - 1];
      RetainedIsTakeLast(init, limit);
      AppendIsTakeLast(Retained(init, limit), c, limit);
      TakeLastAppend(Flatten(init), c, limit);
    }
  }

  /** The six-way merge leaves the suffix of the buffered text, or what was retained if nothing was buffered. */
  lemma {:induction false} MergeRefinesTakeLast<T>(retained: seq<T>, buffered: seq<T>, limit: int)
    requires limit > 0 && |retained| <= limit
    ensures Merged(retained, buffered, true, limit) == if buffered == [] then retained else TakeLast(buffered, limit)
  {
    if buffered != [] {
      match BufferedResultDelta(retained, buffered, limit)
      case Append(text) =>
        if text == [] {
          assert IsSuffix(retained, buffered) || retained == buffered;
        } else {
          assert retained + text == buffered;
          AppendIsTakeLast(retained, text, limit);
        }
      case Replace(text) =>
        AppendIsTakeLast([], text, limit);
        assert [] + text == text;
    }
  }

  /** When the buffered result is exactly what was streamed, the merge emits and changes nothing if and only if
      the retention limit is positive or nothing was produced. */
  lemma MergeOfStreamedTextIsNoop<T>(text: seq<T>, limit: int)
    ensures Emitted(TakeLast(text, limit), text, true, limit) == [] <==> limit > 0 || text == []
    ensures limit > 0 ==> Merged(TakeLast(text, limit), text, true, limit) == TakeLast(text, limit)
  {
    TakeLastIsSuffix(text, limit);
    if limit > 0 && text != [] {
      var r := TakeLast(text, limit);
      assert |r| < limit ==> r == text;
    }
  }

  /** If the stream delivered a prefix of the buffered text, the merge emits exactly the missing rest if and only
      if the streamed prefix is shorter than the limit, or is everything, or fills the limit exactly without also
      being a suffix of the buffered text; without retention, only if nothing was streamed. */
  lemma EmitsMissingSuffixExactlyWhen<T>(streamed: seq<T>, buffered: seq<T>, limit: int)
    requires IsPrefix(streamed, buffered)
    ensures Emitted(TakeLast(streamed, limit), buffered, true, limit) == buffered[|streamed|..]
            <==> if limit > 0 then |streamed| < limit || streamed == buffered
                                   || (|streamed| == limit && !IsSuffix(streamed, buffered))
                 else streamed == []
  {
    var r := TakeLast(streamed, limit);
    TakeLastIsSuffix(streamed, limit);
    var e := Emitted(r, buffered, true, limit);
    if limit > 0 {
      if |streamed| <= limit {
        assert r == streamed;
      } else if streamed == buffered {
        assert buffered[|streamed|..] == [];
      } else {
        assert r != [] && |r| == limit;
        assert |buffered[|streamed|..]| == |buffered| - |streamed|;
        assert e == [] || |e| == |buffered| - limit || |e| == |buffered|;
      }
    } else {
      assert |buffered[|streamed|..]| == |buffered| - |streamed|;
    }
  }

  /** Both ways to fail, with a limit of one: text streamed beyond the limit is emitted again, and text that looks
      like a truncated copy is never emitted. */
  lemma MergeCanRepeatAndLose()
    ensures IsPrefix("ab", "abc") && Emitted(TakeLast("ab", 1), "abc", true, 1) == "abc" != "abc"[2..]
    ensures IsPrefix("a", "aa") && Emitted(TakeLast("a", 1), "aa", true, 1) == "" != "aa"[1..]
  {
    assert TakeLast("ab", 1) == "b" && TakeLast("a", 1) == "a";
    assert "abc"[2..] == "c" && "aa"[1..] == "a";
  }
}
