/** The server-sent-events reader shared by the client's two streaming
    calls (frontend/src/client/client.ts, `sendMessageStreaming` and
    `resubscribeTask`): the body text is cut into frames at each blank
    line, each `data: ` frame is parsed as JSON, and every truthy `result`
    is yielded. Chunks are already-decoded text; `JSON.parse` is a
    parameter. */
module EventStream {
  import opened Results
  import opened Text
  import opened JsonValues
  import opened ClientErrors

  const Separator: string := "\n\n"
  const DataPrefix: string := "data: "
  const ParseErrorPrefix: string := "Failed to parse SSE data: "
  const StreamErrorPrefix: string := "Stream error: "

  /** JavaScript's `s.split("\n\n")`: separators are found left to right
      and do not overlap. */
  function Split(s: string): (pieces: seq<string>)
    ensures |pieces| >= 1
    decreases |s|
  {
    if |s| < 2 then [s]
    else if s[0] == '\n' && s[1] == '\n' then [""] + Split(s[2..])
    else
      var rest := Split(s[1..]);
      [[s[0]] + rest[0]] + rest[1..]
  }

  /** The first piece is a prefix of the text. */
  lemma {:induction false} FirstPieceIsPrefix(s: string)
    ensures |Split(s)[0]| <= |s| && Split(s)[0] == s[..|Split(s)[0]|]
    decreases |s|
  {
    if |s| >= 2 && !(s[0] == '\n' && s[1] == '\n') {
      FirstPieceIsPrefix(s[1..]);
    }
  }

  predicate HasSeparator(s: string)
  {
    exists i :: 0 <= i < |s| - 1 && s[i] == '\n' && s[i + 1] == '\n'
  }

  /** The complete frames of a text: every piece but the last. */
  function CompleteFrames(s: string): (frames: seq<string>)
    ensures |frames| == |Split(s)| - 1
  {
    Split(s)[..|Split(s)| - 1]
  }

  /** The pending rest of a text: the last piece. */
  function Pending(s: string): string
  {
    Split(s)[|Split(s)| - 1]
  }

  /** Joining the pieces with the separator gives back the text. */
  lemma {:induction false} SplitRecompose(s: string)
    ensures Join(Split(s), Separator) == s
    decreases |s|
  {
    if |s| >= 2 {
      if s[0] == '\n' && s[1] == '\n' {
        SplitRecompose(s[2..]);
      } else {
        SplitRecompose(s[1..]);
        var rest := Split(s[1..]);
        if |rest| > 1 {
          assert ([[s[0]] + rest[0]] + rest[1..])[1..] == rest[1..];
        }
      }
    }
  }

  /** No piece contains the separator. */
  lemma {:induction false} SplitPiecesHaveNoSeparator(s: string)
    ensures forall k :: 0 <= k < |Split(s)| ==> !HasSeparator(Split(s)[k])
    decreases |s|
  {
    if |s| >= 2 {
      if s[0] == '\n' && s[1] == '\n' {
        SplitPiecesHaveNoSeparator(s[2..]);
        assert forall k :: 0 < k < |Split(s)| ==> Split(s)[k] == Split(s[2..])[k - 1];
      } else {
        SplitPiecesHaveNoSeparator(s[1..]);
        FirstPieceIsPrefix(s[1..]);
        var rest := Split(s[1..]);
        var first := [s[0]] + rest[0];
        assert forall k :: 0 < k < |Split(s)| ==> Split(s)[k] == rest[k];
        forall i | 0 <= i < |first| - 1 ensures !(first[i] == '\n' && first[i + 1] == '\n') {
          if i == 0 {
            assert first[1] == rest[0][0] == s[1];
          } else {
            assert first[i] == rest[0][i - 1] && first[i + 1] == rest[0][i];
          }
        }
      }
    }
  }

  /** A split with an empty first piece and more than one piece starts at
      a separator. */
  lemma EmptyFirstPiece(x: string)
    requires |Split(x)| > 1 && Split(x)[0] == ""
    ensures |x| >= 2 && x[0] == '\n' && x[1] == '\n'
  {
  }

  /** Separators are taken left to right: no piece before the last ends
      with a newline, since that newline and the separator after the piece
      would have formed an earlier separator. */
  lemma {:induction false} SplitIsLeftmost(s: string)
    ensures forall k :: 0 <= k < |Split(s)| - 1 ==>
              Split(s)[k] == "" || Split(s)[k][|Split(s)[k]| - 1] != '\n'
    decreases |s|
  {
    if |s| >= 2 {
      if s[0] == '\n' && s[1] == '\n' {
        SplitIsLeftmost(s[2..]);
        assert forall k :: 0 < k < |Split(s)| ==> Split(s)[k] == Split(s[2..])[k - 1];
      } else {
        SplitIsLeftmost(s[1..]);
        var rest := Split(s[1..]);
        assert forall k :: 0 < k < |Split(s)| ==> Split(s)[k] == rest[k];
        if |rest| > 1 {
          var first := [s[0]] + rest[0];
          if rest[0] == "" {
            EmptyFirstPiece(s[1..]);
            assert first == [s[0]] && s[0] != '\n';
          } else {
            assert first[|first| - 1] == rest[0][|rest[0]| - 1];
          }
        }
      }
    }
  }

  /** The last piece of a split is pending text that splits to itself. */
  lemma {:induction false} PendingSplitsToItself(s: string)
    ensures Split(Pending(s)) == [Pending(s)]
    decreases |s|
  {
    if |s| >= 2 {
      if s[0] == '\n' && s[1] == '\n' {
        PendingSplitsToItself(s[2..]);
      } else {
        var rest := Split(s[1..]);
        if |rest| > 1 {
          PendingSplitsToItself(s[1..]);
        } else {
          SplitRecompose(s[1..]);
          assert Pending(s) == s;
        }
      }
    }
  }

  /** Splitting more text keeps the complete frames found so far; only the
      pending piece is split again together with the new text. */
  lemma {:induction false} SplitAppend(s: string, t: string)
    ensures CompleteFrames(s + t) == CompleteFrames(s) + CompleteFrames(Pending(s) + t)
    ensures Pending(s + t) == Pending(Pending(s) + t)
    decreases |s|, 1
  {
    if |Split(s)| == 1 {
      SplitRecompose(s);
      assert Pending(s) == s && CompleteFrames(s) == [];
    } else if s[0] == '\n' && s[1] == '\n' {
      SplitAppendAfterSeparator(s, t);
    } else {
      SplitAppendAfterCharacter(s, t);
    }
  }

  lemma {:induction false} SplitAppendAfterSeparator(s: string, t: string)
    requires |s| >= 2 && s[0] == '\n' && s[1] == '\n'
    ensures CompleteFrames(s + t) == CompleteFrames(s) + CompleteFrames(Pending(s) + t)
    ensures Pending(s + t) == Pending(Pending(s) + t)
    decreases |s|, 0
  {
    var u := s[2..];
    SeparatorFirstAppend(s, t);
    SeparatorFirst(s);
    SplitAppend(u, t);
    var a, b := CompleteFrames(u), CompleteFrames(Pending(u) + t);
    assert [""] + (a + b) == ([""] + a) + b;
  }

  /** Appending to a text that starts with the separator. */
  lemma SeparatorFirstAppend(s: string, t: string)
    requires |s| >= 2 && s[0] == '\n' && s[1] == '\n'
    ensures CompleteFrames(s + t) == [""] + CompleteFrames(s[2..] + t)
    ensures Pending(s + t) == Pending(s[2..] + t)
  {
    var st := s + t;
    assert st[0] == '\n' && st[1] == '\n' && st[2..] == s[2..] + t;
    SeparatorFirst(st);
  }

  lemma {:induction false} SplitAppendAfterCharacter(s: string, t: string)
    requires |s| >= 2 && !(s[0] == '\n' && s[1] == '\n') && |Split(s)| > 1
    ensures CompleteFrames(s + t) == CompleteFrames(s) + CompleteFrames(Pending(s) + t)
    ensures Pending(s + t) == Pending(Pending(s) + t)
    decreases |s|, 0
  {
    var u := s[1..];
    SplitLengthAfterCharacter(s);
    SplitAppend(u, t);
    CharacterFirst(s);
    CharacterFirstAppend(s, t);
    FirstFrame(u);
    FirstFrame(u + t);
    Regroup([s[0]] + Split(u)[0], CompleteFrames(u), CompleteFrames(Pending(u) + t));
  }

  /** Appending to a text that starts with a character of its first frame,
      when more than one frame follows. */
  lemma CharacterFirstAppend(s: string, t: string)
    requires |s| >= 2 && !(s[0] == '\n' && s[1] == '\n') && |Split(s[1..] + t)| > 1
    ensures CompleteFrames(s + t) == [[s[0]] + Split(s[1..] + t)[0]] + CompleteFrames(s[1..] + t)[1..]
    ensures Pending(s + t) == Pending(s[1..] + t)
  {
    var st := s + t;
    assert st[0] == s[0] && st[1] == s[1] && st[1..] == s[1..] + t;
    CharacterFirst(st);
  }

  /** With more than one piece, the first piece is the first frame. */
  lemma FirstFrame(x: string)
    requires |Split(x)| > 1
    ensures |CompleteFrames(x)| >= 1 && CompleteFrames(x)[0] == Split(x)[0]
  {
  }

  lemma Regroup(head: string, a: seq<string>, b: seq<string>)
    requires |a| >= 1
    ensures [head] + (a + b)[1..] == ([head] + a[1..]) + b
  {
    assert (a + b)[1..] == a[1..] + b;
  }

  /** A text that starts with the separator: an empty frame, then the rest. */
  lemma SeparatorFirst(x: string)
    requires |x| >= 2 && x[0] == '\n' && x[1] == '\n'
    ensures CompleteFrames(x) == [""] + CompleteFrames(x[2..])
    ensures Pending(x) == Pending(x[2..])
  {
    assert Split(x) == [""] + Split(x[2..]);
  }

  /** A leading character of the first frame does not change the number
      of pieces. */
  lemma SplitLengthAfterCharacter(x: string)
    requires |x| >= 2 && !(x[0] == '\n' && x[1] == '\n')
    ensures |Split(x)| == |Split(x[1..])|
  {
  }

  /** A text that starts with a character of its first frame, when more
      than one frame follows. */
  lemma CharacterFirst(x: string)
    requires |x| >= 2 && !(x[0] == '\n' && x[1] == '\n') && |Split(x[1..])| > 1
    ensures CompleteFrames(x) == [[x[0]] + Split(x[1..])[0]] + CompleteFrames(x[1..])[1..]
    ensures Pending(x) == Pending(x[1..])
  {
    var r := Split(x[1..]);
    assert Split(x) == [[x[0]] + r[0]] + r[1..];
  }

  // ---------------------------------------------------------------------
  // Frames

  datatype FrameOutcome = Skipped | Yielded(value: Json) | FrameFailed(error: ClientError)

  /** One frame: ignored unless it starts with `data: `; otherwise its data
      is parsed and a truthy `result` is yielded; a parse error or the
      TypeError of the `in` operator becomes a JSON error. */
  function ProcessFrame(frame: string, parse: string -> Result<Json, string>): (r: FrameOutcome)
    ensures !(DataPrefix <= frame) ==> r == Skipped
    ensures r.Yielded? ==> Truthy(r.value)
    ensures r.FrameFailed? ==> r.error.errorClass == JSONClientError && ParseErrorPrefix <= r.error.message
    ensures DataPrefix <= frame ==>
              match parse(frame[|DataPrefix|..])
              case Failure(m) => r == FrameFailed(NewJSONError(ParseErrorPrefix + m))
              case Success(v) =>
                (r.FrameFailed? <==> ResultMember(v).Failure?)
                && (r.FrameFailed? ==> r.error == NewJSONError(ParseErrorPrefix + ResultMember(v).error))
                && (r.Yielded? <==> ResultMember(v).Success? && ResultMember(v).value.Some?)
                && (r.Yielded? ==> r.value == ResultMember(v).value.value)
  {
    if !(DataPrefix <= frame) then Skipped
    else match parse(frame[|DataPrefix|..])
      case Failure(msg) => FrameFailed(NewJSONError(ParseErrorPrefix + msg))
      case Success(v) =>
        match ResultMember(v)
        case Failure(msg) => FrameFailed(NewJSONError(ParseErrorPrefix + msg))
        case Success(None) => Skipped
        case Success(Some(result)) => Yielded(result)
  }

  datatype FramesResult = FramesResult(values: seq<Json>, error: Option<ClientError>)

  /** The frames in order, up to the first failing one. */
  function ProcessFrames(frames: seq<string>, parse: string -> Result<Json, string>): (r: FramesResult)
    ensures |r.values| <= |frames|
    ensures forall k :: 0 <= k < |r.values| ==> Truthy(r.values[k])
    ensures r.error.Some? ==> r.error.value.errorClass == JSONClientError
    decreases |frames|
  {
    if frames == [] then FramesResult([], None)
    else
      var init := ProcessFrames(frames[..|frames| - 1], parse);
      if init.error.Some? then init
      else match ProcessFrame(frames[|frames| - 1], parse)
        case Skipped => init
        case Yielded(v) => FramesResult(init.values + [v], None)
        case FrameFailed(e) => FramesResult(init.values, Some(e))
  }

  /** Processing two runs of frames is processing the first, then, unless it
      failed, the second. */
  lemma {:induction false} ProcessFramesAppend(a: seq<string>, b: seq<string>, parse: string -> Result<Json, string>)
    ensures ProcessFrames(a + b, parse)
            == if ProcessFrames(a, parse).error.Some? then ProcessFrames(a, parse)
               else FramesResult(ProcessFrames(a, parse).values + ProcessFrames(b, parse).values,
                                 ProcessFrames(b, parse).error)
    decreases |b|
  {
    if b == [] {
      assert a + b == a;
    } else {
      var ab := a + b;
      assert ab[..|ab| - 1] == a + b[..|b| - 1] && ab[|ab| - 1] == b[|b| - 1];
      ProcessFramesAppend(a, b[..|b| - 1], parse);
    }
  }

  /** Frames that do not start with `data: ` change nothing. */
  lemma {:induction false} NonDataFramesIgnored(frames: seq<string>, parse: string -> Result<Json, string>)
    requires forall k :: 0 <= k < |frames| ==> !(DataPrefix <= frames[k])
    ensures ProcessFrames(frames, parse) == FramesResult([], None)
    decreases |frames|
  {
    if frames != [] {
      NonDataFramesIgnored(frames[..|frames| - 1], parse);
    }
  }

  // ---------------------------------------------------------------------
  // The reading loop

  /** How the body stream ends after its chunks: closed, or a read that
      rejects. */
  datatype ReadEnd = Closed | ReadFailed(thrown: Thrown)

  /** The chunk-by-chunk behaviour of the reading loop from a pending
      buffer: each chunk is appended to the buffer, the complete frames are
      processed, and the last piece stays buffered. */
  function Drain(buffer: string, chunks: seq<string>, parse: string -> Result<Json, string>): (r: FramesResult)
    decreases |chunks|
  {
    if chunks == [] then FramesResult([], None)
    else
      var text := buffer + chunks[0];
      var run := ProcessFrames(CompleteFrames(text), parse);
      if run.error.Some? then run
      else
        var rest := Drain(Pending(text), chunks[1..], parse);
        FramesResult(run.values + rest.values, rest.error)
  }

  /** What a consumer of the stream observes: the values yielded and the
      error it ends with, if any. */
  datatype StreamResult = StreamResult(values: seq<Json>, failure: Option<Thrown>)

  /** The stream as a whole: the complete frames of the whole body text;
      the pending rest is dropped when the stream closes. */
  function StreamSpec(chunks: seq<string>, end: ReadEnd, parse: string -> Result<Json, string>): (r: StreamResult)
    ensures forall k :: 0 <= k < |r.values| ==> Truthy(r.values[k])
    ensures r.failure.Some? ==> r.failure.value.ClientThrown?
  {
    var run := ProcessFrames(CompleteFrames(Concat(chunks)), parse);
    if run.error.Some? then StreamResult(run.values, Some(ClientThrown(run.error.value)))
    else if end.ReadFailed? then StreamResult(run.values, Some(Normalize(end.thrown, StreamErrorPrefix)))
    else StreamResult(run.values, None)
  }

  /** Chunk boundaries do not matter: reading chunk by chunk from a buffer
      without a separator processes exactly the complete frames of the
      buffered text followed by all chunks. */
  lemma {:induction false} DrainIsWholeText(buffer: string, chunks: seq<string>, parse: string -> Result<Json, string>)
    requires Split(buffer) == [buffer]
    ensures Drain(buffer, chunks, parse) == ProcessFrames(CompleteFrames(buffer + Concat(chunks)), parse)
    decreases |chunks|
  {
    if chunks == [] {
      assert buffer + Concat(chunks) == buffer;
    } else {
      var text := buffer + chunks[0];
      ConcatAppend([chunks[0]], chunks[1..]);
      assert [chunks[0]] + chunks[1..] == chunks;
      assert Concat([chunks[0]]) == chunks[0] by {
        assert [chunks[0]][..0] == [];
      }
      assert buffer + Concat(chunks) == text + Concat(chunks[1..]);
      SplitAppend(text, Concat(chunks[1..]));
      PendingSplitsToItself(text);
      DrainIsWholeText(Pending(text), chunks[1..], parse);
      ProcessFramesAppend(CompleteFrames(text), CompleteFrames(Pending(text) + Concat(chunks[1..])), parse);
    }
  }

  /** The loop invariant of the reading loop: the values yielded so far
      followed by what draining the remaining chunks from the current
      buffer yields is the whole run. */
  predicate DrainResumes(chunks: seq<string>, i: nat, buffer: string, values: seq<Json>,
                         parse: string -> Result<Json, string>)
    requires i <= |chunks|
  {
    var rest := Drain(buffer, chunks[i..], parse);
    Drain("", chunks, parse) == FramesResult(values + rest.values, rest.error)
  }

  /** One chunk of the reading loop: a failing frame ends the run there;
      otherwise the invariant holds for the next chunk and the new buffer. */
  lemma {:induction false} DrainStep(chunks: seq<string>, i: nat, buffer: string, values: seq<Json>,
                  parse: string -> Result<Json, string>)
    requires i < |chunks| && DrainResumes(chunks, i, buffer, values, parse)
    ensures var text := buffer + chunks[i];
            var run := ProcessFrames(CompleteFrames(text), parse);
            (run.error.Some? ==> Drain("", chunks, parse) == FramesResult(values + run.values, run.error))
            && (run.error.None? ==> DrainResumes(chunks, i + 1, Pending(text), values + run.values, parse))
  {
    var text := buffer + chunks[i];
    var run := ProcessFrames(CompleteFrames(text), parse);
    var rest := Drain(Pending(text), chunks[i + 1..], parse);
    assert Drain(buffer, chunks[i..], parse)
           == if run.error.Some? then run else FramesResult(run.values + rest.values, rest.error) by {
      var c := chunks[i..];
      assert c[0] == chunks[i] && c[1..] == chunks[i + 1..];
      DrainFirst(buffer, c, parse);
    }
    if run.error.None? {
      assert values + (run.values + rest.values) == (values + run.values) + rest.values;
    }
  }

  /** The first chunk of a drain. */
  lemma DrainFirst(buffer: string, chunks: seq<string>, parse: string -> Result<Json, string>)
    requires chunks != []
    ensures var text := buffer + chunks[0];
            var run := ProcessFrames(CompleteFrames(text), parse);
            var rest := Drain(Pending(text), chunks[1..], parse);
            Drain(buffer, chunks, parse) == if run.error.Some? then run else FramesResult(run.values + rest.values, rest.error)
  {
  }

  /** The reading loop with its `catch`: frames are processed as chunks
      arrive; a failed read becomes an HTTP 503 stream error and a client
      error is rethrown unchanged. */
  method ReadEventStream(chunks: seq<string>, end: ReadEnd, parse: string -> Result<Json, string>)
    returns (values: seq<Json>, failure: Option<Thrown>)
    ensures StreamResult(values, failure) == StreamSpec(chunks, end, parse)
  {
    var run := DrainChunks(chunks, parse);
    DrainIsWholeText("", chunks, parse);
    assert "" + Concat(chunks) == Concat(chunks);
    values := run.values;
    if run.error.Some? {
      failure := Some(ClientThrown(run.error.value));
    } else if end.ReadFailed? {
      failure := Some(Normalize(end.thrown, StreamErrorPrefix));
    } else {
      failure := None;
    }
  }

  /** The `while (true)` loop over the body's chunks, up to the first
      failing frame. */
  method DrainChunks(chunks: seq<string>, parse: string -> Result<Json, string>) returns (r: FramesResult)
    ensures r == Drain("", chunks, parse)
  {
    var buffer := "";
    var values: seq<Json> := [];
    var i := 0;
    assert chunks[0..] == chunks;
    assert values + Drain(buffer, chunks, parse).values == Drain(buffer, chunks, parse).values;
    while i < |chunks|
      invariant 0 <= i <= |chunks|
      invariant DrainResumes(chunks, i, buffer, values, parse)
    {
      var text := buffer + chunks[i];
      var lines := Split(text);
      var frames := lines[..|lines| - 1];
      var run := RunFrames(frames, parse);
      DrainStep(chunks, i, buffer, values, parse);
      if run.error.Some? {
        return FramesResult(values + run.values, run.error);
      }
      buffer := lines[|lines| - 1];
      values := values + run.values;
      i := i + 1;
    }
    assert chunks[i..] == [];
    assert values + [] == values;
    r := FramesResult(values, None);
  }

  /** The inner loop over one chunk's complete frames. */
  method RunFrames(frames: seq<string>, parse: string -> Result<Json, string>) returns (r: FramesResult)
    ensures r == ProcessFrames(frames, parse)
  {
    var values: seq<Json> := [];
    for j := 0 to |frames|
      invariant ProcessFrames(frames[..j], parse) == FramesResult(values, None)
    {
      assert frames[..j + 1][..j] == frames[..j];
      var frame := frames[j];
      if DataPrefix <= frame {
        var data := frame[|DataPrefix|..];
        var parsed := parse(data);
        if parsed.Failure? {
          ProcessFramesAppend(frames[..j + 1], frames[j + 1..], parse);
          assert frames[..j + 1] + frames[j + 1..] == frames;
          return FramesResult(values, Some(NewJSONError(ParseErrorPrefix + parsed.error)));
        }
        var member := ResultMember(parsed.value);
        if member.Failure? {
          ProcessFramesAppend(frames[..j + 1], frames[j + 1..], parse);
          assert frames[..j + 1] + frames[j + 1..] == frames;
          return FramesResult(values, Some(NewJSONError(ParseErrorPrefix + member.error)));
        }
        if member.value.Some? {
          values := values + [member.value.value];
        }
      }
    }
    assert frames[..|frames|] == frames;
    r := FramesResult(values, None);
  }
}
