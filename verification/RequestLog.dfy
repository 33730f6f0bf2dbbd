/** Bounded body capture with exact replay. */
module BodyCapture {
  import opened Bytes
  import opened Wrappers

  const TRUNCATION_SLACK: nat := 1

  /** What a body stream still yields: chunks, then its end or its first error. */
  datatype Body<+E> = End | Fault(error: E) | More(chunk: Bytes, rest: Body<E>)

  /** What a reader of the whole body sees: every byte, and the error that cut it off, if any. */
  function BytesOf<E>(body: Body<E>): Bytes {
    if body.More? then body.chunk + BytesOf(body.rest) else []
  }

  function ErrorOf<E>(body: Body<E>): Option<E> {
    match body
    case End => None
    case Fault(e) => Some(e)
    case More(_, rest) => ErrorOf(rest)
  }

  function Concat(chunks: seq<Bytes>): Bytes {
    if chunks == [] then [] else Concat(chunks[..|chunks| - 1]) + chunks[|chunks| - 1]
  }

  /** Yield `chunks`, then go on with `rest`. */
  function Chain<E>(chunks: seq<Bytes>, rest: Body<E>): Body<E> {
    if chunks == [] then rest
    else Chain(chunks[..|chunks| - 1], More(chunks[|chunks| - 1], rest))
  }

  lemma {:induction false} ChainIs<E>(chunks: seq<Bytes>, rest: Body<E>)
    ensures BytesOf(Chain(chunks, rest)) == Concat(chunks) + BytesOf(rest)
    ensures ErrorOf(Chain(chunks, rest)) == ErrorOf(rest)
  {
    if chunks != [] {
      var init := chunks[..|chunks| - 1];
      var last := chunks[|chunks| - 1];
      ChainIs(init, More(last, rest));
      assert Concat(init) + (last + BytesOf(rest)) == Concat(chunks) + BytesOf(rest);
    }
  }

  datatype Outcome<+E> = Complete | HasMore | Errored(error: E)

  function Min(a: nat, b: nat): nat {
    if a < b then a else b
  }

  /** The longest chunk of the body. */
  function MaxChunk<E>(body: Body<E>): nat {
    if body.More? && |body.chunk| > MaxChunk(body.rest) then |body.chunk|
    else if body.More? then MaxChunk(body.rest)
    else 0
  }

  lemma ConcatOneMore(chunks: seq<Bytes>, chunk: Bytes)
    ensures Concat(chunks + [chunk]) == Concat(chunks) + chunk
  {
    assert (chunks + [chunk])[..|chunks|] == chunks;
  }

  /** The chunks read and the stream left are the whole body. */
  ghost predicate Reads<E>(body: Body<E>, chunks: seq<Bytes>, stream: Body<E>) {
    Concat(chunks) + BytesOf(stream) == BytesOf(body) && ErrorOf(stream) == ErrorOf(body)
      && MaxChunk(stream) <= MaxChunk(body)
  }

  lemma ReadsOneMore<E>(body: Body<E>, chunks: seq<Bytes>, stream: Body<E>)
    requires Reads(body, chunks, stream) && stream.More?
    ensures Reads(body, chunks + [stream.chunk], stream.rest) && |stream.chunk| <= MaxChunk(body)
    ensures |Concat(chunks + [stream.chunk])| == |Concat(chunks)| + |stream.chunk|
  {
    ConcatOneMore(chunks, stream.chunk);
    assert Concat(chunks) + (stream.chunk + BytesOf(stream.rest))
           == Concat(chunks) + stream.chunk + BytesOf(stream.rest);
  }

  /** The body as the handler gets it: a whole body in one piece, else the chunks again and then the rest or the
      error. */
  method Rebuild<E>(chunks: seq<Bytes>, stream: Body<E>, outcome: Outcome<E>) returns (rebuilt: Body<E>)
    requires outcome == Complete ==> stream == End
    requires outcome.Errored? ==> stream == Fault(outcome.error)
    ensures BytesOf(rebuilt) == Concat(chunks) + BytesOf(stream) && ErrorOf(rebuilt) == ErrorOf(stream)
  {
    match outcome {
      case Complete => rebuilt := More(Concat(chunks), End);
      case HasMore =>
        rebuilt := Chain(chunks, stream);
        ChainIs(chunks, stream);
      case Errored(e) =>
        rebuilt := Chain(chunks, Fault(e));
        ChainIs<E>(chunks, Fault(e));
    }
  }

  /** Read up to `cap` bytes and one more; the rebuilt body yields the same bytes and the same error. `held` is what was
      kept in memory. */
  method BufferPrefix<E>(body: Body<E>, cap: nat) returns (prefix: Bytes, truncated: bool, rebuilt: Body<E>, held: nat)
    ensures prefix == BytesOf(body)[..Min(cap, |BytesOf(body)|)]
    ensures truncated <==> |BytesOf(body)| > cap
    ensures BytesOf(rebuilt) == BytesOf(body) && ErrorOf(rebuilt) == ErrorOf(body)
    ensures held <= cap + MaxChunk(body)
  {
    var bound := cap + TRUNCATION_SLACK;
    var stream := body;
    var chunks: seq<Bytes> := [];
    var total := 0;
    var outcome: Outcome<E> := Complete;
    while true
      invariant Reads(body, chunks, stream)
      invariant total == |Concat(chunks)| <= cap + MaxChunk(body)
      decreases stream
    {
      if total >= bound {
        outcome := HasMore;
        break;
      }
      match stream {
        case End =>
          outcome := Complete;
          break;
        case Fault(e) =>
          outcome := Errored(e);
          break;
        case More(chunk, rest) =>
          ReadsOneMore(body, chunks, stream);
          total := total + |chunk|;
          chunks := chunks + [chunk];
          stream := rest;
      }
    }
    held := total;
    prefix := FirstBytes(chunks, cap);
    truncated := total > cap;
    assert BytesOf(body)[..total] == Concat(chunks);
    rebuilt := Rebuild(chunks, stream, outcome);
  }

  lemma {:induction false} ConcatTail(chunks: seq<Bytes>, i: nat)
    requires i < |chunks|
    ensures Concat(chunks[..i + 1]) == Concat(chunks[..i]) + chunks[i]
  {
    assert chunks[..i + 1][..i] == chunks[..i];
  }

  lemma {:induction false} ConcatPrefix(chunks: seq<Bytes>, i: nat)
    requires i <= |chunks|
    ensures |Concat(chunks[..i])| <= |Concat(chunks)|
    ensures Concat(chunks)[..|Concat(chunks[..i])|] == Concat(chunks[..i])
    decreases |chunks| - i
  {
    if i == |chunks| {
      assert chunks[..i] == chunks;
    } else {
      ConcatPrefix(chunks, i + 1);
      ConcatTail(chunks, i);
    }
  }

  /** Copy from the chunks until `cap` bytes are taken. */
  method FirstBytes(chunks: seq<Bytes>, cap: nat) returns (prefix: Bytes)
    ensures prefix == Concat(chunks)[..Min(cap, |Concat(chunks)|)]
  {
    prefix := [];
    var i := 0;
    while i < |chunks|
      invariant 0 <= i <= |chunks|
      invariant prefix == Concat(chunks[..i])[..Min(cap, |Concat(chunks[..i])|)]
    {
      var room := cap - |prefix|;
      if room == 0 {
        ConcatPrefix(chunks, i);
        return;
      }
      ConcatTail(chunks, i);
      prefix := prefix + chunks[i][..Min(|chunks[i]|, room)];
      i := i + 1;
    }
    assert chunks[..i] == chunks;
  }
}
