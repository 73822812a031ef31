/** Translation between protocol parts and framework parts
    (a2adk/utils.py). Protocol to framework is total over text, file by URI
    and file by bytes and fails on any other shape; framework to protocol
    drops the parts without a payload. */
module PartConversion {
  import opened Results
  import A2A
  import Genai

  /** The `ValueError`s of the two single-part conversions, carrying the
      value whose type the message names. */
  datatype ConversionError =
    | UnsupportedFileType(file: A2A.FileContent)
    | UnsupportedPartType(part: A2A.Part)
    | UnsupportedGenaiPart(genaiPart: Genai.Part)

  /** The protocol part shapes the translation accepts. */
  predicate Supported(p: A2A.Part)
  {
    p.TextPart? || (p.FilePart? && !p.file.OtherFile?)
  }

  /** `convert_a2a_part_to_genai`. */
  function ToGenaiPart(p: A2A.Part): (r: Result<Genai.Part, ConversionError>)
    ensures r.Success? <==> Supported(p)
    ensures r.Failure? && p.FilePart? ==> r.error == UnsupportedFileType(p.file)
    ensures r.Failure? && !p.FilePart? ==> r.error == UnsupportedPartType(p)
    ensures r.Success? ==> (r.value.text.Some? <==> p.TextPart?)
    ensures r.Success? ==> (r.value.fileData.Some? <==> p.FilePart? && p.file.FileWithUri?)
    ensures r.Success? ==> (r.value.inlineData.Some? <==> p.FilePart? && p.file.FileWithBytes?)
    ensures p.TextPart? ==> r.Success? && r.value.text == Some(p.text)
    ensures p.FilePart? && p.file.FileWithUri? ==>
              r.Success? && r.value.fileData == Some(Genai.FileData(p.file.uri, p.file.mimeType))
    ensures p.FilePart? && p.file.FileWithBytes? ==>
              r.Success? && r.value.inlineData == Some(Genai.Blob(p.file.bytes, p.file.mimeType))
  {
    match p
    case TextPart(text) => Success(Genai.Part(Some(text), None, None))
    case FilePart(file) =>
      (match file
       case FileWithUri(uri, mimeType, _) =>
         Success(Genai.Part(None, Some(Genai.FileData(uri, mimeType)), None))
       case FileWithBytes(bytes, mimeType, _) =>
         Success(Genai.Part(None, None, Some(Genai.Blob(bytes, mimeType))))
       case OtherFile(_) => Failure(UnsupportedFileType(file)))
    case DataPart(_) => Failure(UnsupportedPartType(p))
  }

  /** `convert_a2a_parts_to_genai`: element by element, failing with the
      error of the first unsupported part. */
  function ToGenaiParts(ps: seq<A2A.Part>): (r: Result<seq<Genai.Part>, ConversionError>)
    ensures r.Success? <==> forall i :: 0 <= i < |ps| ==> Supported(ps[i])
    ensures r.Success? ==> |r.value| == |ps|
    ensures r.Success? ==> forall i :: 0 <= i < |ps| ==> r.value[i] == ToGenaiPart(ps[i]).value
    ensures r.Failure? ==>
              exists k :: (0 <= k < |ps| && !Supported(ps[k])
                           && (forall i :: 0 <= i < k ==> Supported(ps[i]))
                           && r.error == ToGenaiPart(ps[k]).error)
  {
    if ps == [] then Success([])
    else
      match ToGenaiPart(ps[0])
      case Failure(e) => Failure(e)
      case Success(g) =>
        match ToGenaiParts(ps[1..])
        case Failure(e) => Failure(e)
        case Success(gs) => Success([g] + gs)
  }

  /** `convert_genai_part_to_a2a`: text first, then `file_data`, then
      `inline_data`. */
  function ToA2APart(g: Genai.Part): (r: Result<A2A.Part, ConversionError>)
    ensures r.Success? <==> Genai.HasPayload(g)
    ensures r.Failure? ==> r.error == UnsupportedGenaiPart(g)
    ensures r.Success? ==> (r.value.TextPart? <==> Genai.HasText(g))
    ensures r.Success? && r.value.TextPart? ==> Some(r.value.text) == g.text
    ensures r.Success? && r.value.FilePart? && r.value.file.FileWithUri? ==>
      !Genai.HasText(g) && g.fileData.Some? && r.value.file.uri == g.fileData.value.fileUri
      && r.value.file.mimeType == g.fileData.value.mimeType
    ensures r.Success? && r.value.FilePart? && r.value.file.FileWithBytes? ==>
      !Genai.HasText(g) && g.fileData.None? && g.inlineData.Some? && r.value.file.bytes == g.inlineData.value.data
      && r.value.file.mimeType == g.inlineData.value.mimeType
    ensures r.Success? ==> !r.value.DataPart? && !(r.value.FilePart? && r.value.file.OtherFile?)
    ensures r.Success? && r.value.FilePart? ==> r.value.file.name.None?
  {
    if Genai.HasText(g) then Success(A2A.TextPart(g.text.value))
    else if g.fileData.Some? then
      Success(A2A.FilePart(A2A.FileWithUri(g.fileData.value.fileUri, g.fileData.value.mimeType, None)))
    else if g.inlineData.Some? then
      Success(A2A.FilePart(A2A.FileWithBytes(g.inlineData.value.data, g.inlineData.value.mimeType, None)))
    else Failure(UnsupportedGenaiPart(g))
  }

  /** The parts `convert_genai_parts_to_a2a` keeps, in order. */
  function WithPayload(gs: seq<Genai.Part>): (kept: seq<Genai.Part>)
    ensures |kept| <= |gs|
    ensures forall i :: 0 <= i < |kept| ==> Genai.HasPayload(kept[i])
    ensures forall g :: g in kept <==> g in gs && Genai.HasPayload(g)
  {
    if gs == [] then []
    else (if Genai.HasPayload(gs[0]) then [gs[0]] else []) + WithPayload(gs[1..])
  }

  /** `convert_genai_parts_to_a2a`: filter, then convert. The filter is the
      single-part conversion's success condition, so this never fails. */
  function ToA2AParts(gs: seq<Genai.Part>): (r: seq<A2A.Part>)
    ensures |r| == |WithPayload(gs)| <= |gs|
  {
    if gs == [] then []
    else if Genai.HasPayload(gs[0]) then [ToA2APart(gs[0]).value] + ToA2AParts(gs[1..])
    else ToA2AParts(gs[1..])
  }

  /** Each converted part is the single-part conversion of the corresponding
      kept part: the output lists exactly the parts with a payload, in order. */
  lemma {:induction false} ToA2APartsElementwise(gs: seq<Genai.Part>)
    ensures forall i :: 0 <= i < |ToA2AParts(gs)| ==>
              Success(ToA2AParts(gs)[i]) == ToA2APart(WithPayload(gs)[i])
  {
    if gs != [] {
      ToA2APartsElementwise(gs[1..]);
      var out, kept := ToA2AParts(gs[1..]), WithPayload(gs[1..]);
      if Genai.HasPayload(gs[0]) {
        assert ToA2AParts(gs) == [ToA2APart(gs[0]).value] + out;
        assert WithPayload(gs) == [gs[0]] + kept;
        forall i | 0 <= i < |ToA2AParts(gs)|
          ensures Success(ToA2AParts(gs)[i]) == ToA2APart(WithPayload(gs)[i])
        {
          if i > 0 {
            assert ToA2AParts(gs)[i] == out[i - 1] && WithPayload(gs)[i] == kept[i - 1];
          }
        }
      } else {
        assert ToA2AParts(gs) == out && WithPayload(gs) == kept;
      }
    }
  }

  /** Converting a concatenation converts each half. */
  lemma {:induction false} ToA2APartsAppend(a: seq<Genai.Part>, b: seq<Genai.Part>)
    ensures ToA2AParts(a + b) == ToA2AParts(a) + ToA2AParts(b)
  {
    if a == [] {
      assert a + b == b;
    } else {
      assert (a + b)[1..] == a[1..] + b;
      ToA2APartsAppend(a[1..], b);
    }
  }

  /** A part without payload converts to nothing. */
  lemma PayloadlessPartConvertsToNothing(g: Genai.Part)
    requires !Genai.HasPayload(g)
    ensures ToA2AParts([g]) == []
  {
    assert [g][1..] == [];
  }

  /** A part without payload (an empty or missing text and no file) vanishes
      from the converted list wherever it stands. */
  lemma PayloadlessPartDropped(before: seq<Genai.Part>, g: Genai.Part, after: seq<Genai.Part>)
    requires !Genai.HasPayload(g)
    ensures ToA2AParts(before + [g] + after) == ToA2AParts(before + after)
  {
    var b, a := ToA2AParts(before), ToA2AParts(after);
    ToA2APartsAppend(before + [g], after);
    ToA2APartsAppend(before, [g]);
    PayloadlessPartConvertsToNothing(g);
    ToA2APartsAppend(before, after);
    assert b + [] + a == b + a;
  }

  /** A protocol part that survives a round trip: a supported shape, a
      non-empty text, a file without a name. */
  predicate RoundTrips(p: A2A.Part)
  {
    match p
    case TextPart(text) => text != ""
    case FilePart(file) => !file.OtherFile? && file.name.None?
    case DataPart(_) => false
  }

  /** Protocol to framework to protocol returns the original list when every
      text is non-empty and no file carries a name. */
  lemma {:induction false} RoundTrip(ps: seq<A2A.Part>)
    requires forall i :: 0 <= i < |ps| ==> RoundTrips(ps[i])
    ensures ToGenaiParts(ps).Success?
    ensures ToA2AParts(ToGenaiParts(ps).value) == ps
  {
    if ps != [] {
      RoundTrip(ps[1..]);
      var gs := ToGenaiParts(ps).value;
      assert gs[1..] == ToGenaiParts(ps[1..]).value;
      assert ToA2APart(gs[0]) == Success(ps[0]);
    }
  }

  /** A framework part carrying exactly one payload (a non-empty text, a file
      reference or inline bytes) survives framework to protocol to framework. */
  lemma SinglePayloadRoundTrip(g: Genai.Part)
    requires Genai.HasText(g) || g.text.None?
    requires (if g.text.Some? then 1 else 0) + (if g.fileData.Some? then 1 else 0)
           + (if g.inlineData.Some? then 1 else 0) == 1
    ensures ToA2APart(g).Success?
    ensures ToGenaiPart(ToA2APart(g).value) == Success(g)
  {
  }
}
