/**
 * The call to the image model and the reading of its reply. The network
 * client itself is a parameter: a `Service` maps the request the program
 * builds to either a reply or a transport error message.
 */
module Gemini {
  import opened Wrappers
  import opened Text
  import opened Types
  import opened Payload
  import opened Prompts

  const ModelName := "gemini-2.5-flash-image"
  /** The image sent along with the instruction is always declared as JPEG. */
  const RequestMimeType := "image/jpeg"

  const NoContentMessage := "No se generó contenido."
  const NoImageMessage := "La API no devolvió una imagen válida."

  // ---------------------------------------------------------------------
  // Shape of requests and replies

  /** Inline binary data; a reply may leave out either field. */
  datatype InlineData = InlineData(mimeType: Option<string>, data: Option<string>)

  /** A part of a message: text, inline binary data, or (in a reply) both absent. */
  datatype Part = Part(text: Option<string>, inlineData: Option<InlineData>)

  datatype Content = Content(parts: Option<seq<Part>>)

  datatype Candidate = Candidate(content: Option<Content>)

  datatype Response = Response(candidates: Option<seq<Candidate>>)

  datatype Request = Request(model: string, parts: seq<Part>)

  /** Why a generation failed. */
  datatype Failure =
    | NoContent              // the reply has no parts at all
    | NoValidImage           // the reply has parts but none carries an image
    | Transport(reason: string)  // the client itself failed
  {
    function Message(): string
    {
      match this
      case NoContent => NoContentMessage
      case NoValidImage => NoImageMessage
      case Transport(reason) => reason
    }
  }

  /** The network client, left abstract. */
  type Service = Request -> Result<Response, string>

  // ---------------------------------------------------------------------
  // Building the request

  function TextPart(text: string): Part
  {
    Part(Some(text), None)
  }

  function ImagePart(mime: string, data: string): Part
  {
    Part(None, Some(InlineData(Some(mime), Some(data))))
  }

  /** The request `callGemini` sends: the instruction followed by the JPEG image. */
  function BuildRequest(prompt: string, base64Data: string): (req: Request)
    ensures req.model == ModelName && |req.parts| == 2
    ensures req.parts[0].text == Some(prompt) && req.parts[0].inlineData.None?
    ensures req.parts[1].inlineData == Some(InlineData(Some(RequestMimeType), Some(base64Data)))
    ensures req.parts[1].text.None?
  {
    Request(ModelName, [TextPart(prompt), ImagePart(RequestMimeType, base64Data)])
  }

  // ---------------------------------------------------------------------
  // Reading the reply

  /** `response.candidates?.[0]?.content?.parts`: absent when any link of the chain is. */
  function ResponseParts(resp: Response): (r: Option<seq<Part>>)
    ensures r.Some? <==>
              && resp.candidates.Some? && |resp.candidates.value| > 0
              && resp.candidates.value[0].content.Some?
              && resp.candidates.value[0].content.value.parts.Some?
    ensures r.Some? ==> r.value == resp.candidates.value[0].content.value.parts.value
  {
    if resp.candidates.Some? && |resp.candidates.value| > 0 && resp.candidates.value[0].content.Some?
    then resp.candidates.value[0].content.value.parts
    else None
  }

  /** Part `i` is the first one with inline data. */
  predicate IsFirstImage(parts: seq<Part>, i: nat)
  {
    i < |parts| && parts[i].inlineData.Some? &&
    forall j :: 0 <= j < i ==> parts[j].inlineData.None?
  }

  /** Index of the first part carrying inline data, if any. */
  function FirstImageIndex(parts: seq<Part>): (r: Option<nat>)
    ensures r.Some? ==> IsFirstImage(parts, r.value)
    ensures r.None? <==> forall j :: 0 <= j < |parts| ==> parts[j].inlineData.None?
  {
    if |parts| == 0 then None
    else if parts[0].inlineData.Some? then Some(0)
    else
      match FirstImageIndex(parts[1..])
      case Some(i) => Some(i + 1)
      case None => None
  }

  /** At most one index is the first image. */
  lemma FirstImageUnique(parts: seq<Part>, i: nat, k: nat)
    requires IsFirstImage(parts, i) && IsFirstImage(parts, k)
    ensures i == k
  {
  }

  /** A field interpolated into a template literal: an absent one prints as "undefined". */
  function Interpolate(field: Option<string>): string
  {
    match field
    case Some(text) => text
    case None => "undefined"
  }

  /** The data URI the program builds from an image part. */
  function ImageUri(d: InlineData): string
  {
    DataUri(Interpolate(d.mimeType), Interpolate(d.data))
  }

  /**
   * The loop over the parts: the first part with inline data, as a data URI
   * carrying that part's own mime type; otherwise the "no valid image" error.
   */
  function ExtractFromParts(parts: seq<Part>): (r: Result<string, Failure>)
    ensures r.Err? ==> r.error == NoValidImage
    ensures r.Ok? <==> exists i :: 0 <= i < |parts| && parts[i].inlineData.Some?
    ensures forall i: nat :: IsFirstImage(parts, i) ==> r == Ok(ImageUri(parts[i].inlineData.value))
  {
    match FirstImageIndex(parts)
    case None => Err(NoValidImage)
    case Some(i) =>
      assert forall k: nat :: IsFirstImage(parts, k) ==> k == i by {
        forall k: nat | IsFirstImage(parts, k) ensures k == i {
          FirstImageUnique(parts, i, k);
        }
      }
      Ok(ImageUri(parts[i].inlineData.value))
  }

  /** The reply handling of `callGemini`: two distinct errors and one success. */
  function ExtractImage(resp: Response): (r: Result<string, Failure>)
    ensures r == Err(NoContent) <==> ResponseParts(resp).None?
    ensures r == Err(NoValidImage) <==>
              ResponseParts(resp).Some? &&
              forall j :: 0 <= j < |ResponseParts(resp).value| ==> ResponseParts(resp).value[j].inlineData.None?
    ensures r.Ok? ==> exists i: nat :: IsFirstImage(ResponseParts(resp).value, i) &&
                       r.value == ImageUri(ResponseParts(resp).value[i].inlineData.value)
    ensures ResponseParts(resp).Some? ==> r == ExtractFromParts(ResponseParts(resp).value)
  {
    match ResponseParts(resp)
    case None => Err(NoContent)
    case Some(parts) =>
      assert ExtractFromParts(parts).Ok? ==> IsFirstImage(parts, FirstImageIndex(parts).value);
      ExtractFromParts(parts)
  }

  /** The same scan written as the program writes it, as a loop that returns early. */
  method ScanParts(parts: seq<Part>) returns (r: Result<string, Failure>)
    ensures r == ExtractFromParts(parts)
  {
    for i := 0 to |parts|
      invariant forall j :: 0 <= j < i ==> parts[j].inlineData.None?
    {
      if parts[i].inlineData.Some? {
        assert IsFirstImage(parts, i);
        return Ok(ImageUri(parts[i].inlineData.value));
      }
    }
    return Err(NoValidImage);
  }

  /** Independent reading of the scan: the inline data of all parts, in order. */
  function ImageData(parts: seq<Part>): seq<InlineData>
  {
    if |parts| == 0 then []
    else if parts[0].inlineData.Some? then [parts[0].inlineData.value] + ImageData(parts[1..])
    else ImageData(parts[1..])
  }

  /** The scan returns the first of all the inline images, and fails when there is none. */
  lemma {:induction false} ExtractTakesFirstOfImages(parts: seq<Part>)
    ensures ExtractFromParts(parts) ==
              if |ImageData(parts)| == 0 then Err(NoValidImage) else Ok(ImageUri(ImageData(parts)[0]))
  {
    if |parts| > 0 {
      if parts[0].inlineData.Some? {
        assert IsFirstImage(parts, 0);
      } else {
        ExtractTakesFirstOfImages(parts[1..]);
        var tail := parts[1..];
        if FirstImageIndex(tail).Some? {
          var k := FirstImageIndex(tail).value;
          assert IsFirstImage(parts, k + 1);
        } else {
          assert forall j :: 0 <= j < |parts| ==> parts[j].inlineData.None? by {
            forall j | 0 <= j < |parts| ensures parts[j].inlineData.None? {
              if j > 0 { assert tail[j - 1] == parts[j]; }
            }
          }
        }
      }
    }
  }

  /** Text-only parts before the first image do not change the outcome. */
  lemma ExtractSkipsTextParts(texts: seq<Part>, rest: seq<Part>)
    requires forall j :: 0 <= j < |texts| ==> texts[j].inlineData.None?
    ensures ExtractFromParts(texts + rest) == ExtractFromParts(rest)
  {
    var all := texts + rest;
    match FirstImageIndex(rest)
    case Some(k) =>
      assert IsFirstImage(all, |texts| + k) by {
        forall j | 0 <= j < |texts| + k ensures all[j].inlineData.None? {
          if j >= |texts| { assert all[j] == rest[j - |texts|]; }
        }
      }
    case None =>
      forall j | 0 <= j < |all| ensures all[j].inlineData.None? {
        if j >= |texts| { assert all[j] == rest[j - |texts|]; }
      }
  }

  /** A reply that echoed the request's parts would yield the image that was sent, as JPEG. */
  lemma RequestEchoYieldsImage(prompt: string, base64Data: string)
    ensures ExtractFromParts(BuildRequest(prompt, base64Data).parts) ==
              Ok(DataUri(RequestMimeType, base64Data))
  {
    assert IsFirstImage(BuildRequest(prompt, base64Data).parts, 1);
  }

  /**
   * An image part that lacks its mime type or its data still counts as an
   * image, and the missing field is spelt "undefined" in the data URI.
   */
  lemma MissingFieldsPrintUndefined(mime: string, data: string)
    ensures ExtractFromParts([Part(None, Some(InlineData(None, Some(data))))]) ==
              Ok("data:undefined;base64," + data)
    ensures ExtractFromParts([Part(None, Some(InlineData(Some(mime), None)))]) ==
              Ok("data:" + mime + ";base64,undefined")
  {
    assert IsFirstImage([Part(None, Some(InlineData(None, Some(data))))], 0);
    assert IsFirstImage([Part(None, Some(InlineData(Some(mime), None)))], 0);
    assert "data:" + "undefined" + ";base64," == "data:undefined;base64,";
    assert "data:" + mime + ";base64," + "undefined" == "data:" + mime + ";base64,undefined";
  }

  // ---------------------------------------------------------------------
  // The call and the three entry points

  /** Send a request, then read the reply; a failing client becomes a transport failure. */
  function Send(req: Request, service: Service): (r: Result<string, Failure>)
    ensures service(req).Err? ==> r == Err(Transport(service(req).error))
    ensures service(req).Ok? ==> r == ExtractImage(service(req).value)
  {
    match service(req)
    case Err(reason) => Err(Transport(reason))
    case Ok(resp) => ExtractImage(resp)
  }

  /** `callGemini`: build the request for the instruction and the payload, and send it. */
  function CallGemini(prompt: string, base64Data: string, service: Service): (r: Result<string, Failure>)
    ensures service(BuildRequest(prompt, base64Data)).Err? <==> r.Err? && r.error.Transport?
    ensures service(BuildRequest(prompt, base64Data)).Ok? ==>
              r == ExtractImage(service(BuildRequest(prompt, base64Data)).value)
  {
    Send(BuildRequest(prompt, base64Data), service)
  }

  /** The request an entry point sends for an instruction and a selected image. */
  function ImageRequest(prompt: string, image: string): (req: Request)
    ensures |req.parts| == 2 && req.parts[1].inlineData == Some(InlineData(Some(RequestMimeType), Some(CleanBase64(image))))
  {
    BuildRequest(prompt, CleanBase64(image))
  }

  /** The request each entry point sends: its own instruction and the normalised image. */
  function EmoteRequest(config: GenerationConfig): Request
  {
    ImageRequest(EmotePrompt(config), config.imageBase64)
  }

  function PortraitRequest(config: PortraitConfig): Request
  {
    ImageRequest(PortraitPrompt(config), config.imageBase64)
  }

  function RemoveBgRequest(config: RemoveBgConfig): Request
  {
    ImageRequest(BackgroundPrompt(config), config.imageBase64)
  }

  /** `generateEmote`. */
  function GenerateEmote(config: GenerationConfig, service: Service): (r: Result<string, Failure>)
    ensures service(EmoteRequest(config)).Err? <==> r.Err? && r.error.Transport?
    ensures service(EmoteRequest(config)).Ok? ==> r == ExtractImage(service(EmoteRequest(config)).value)
  {
    Send(EmoteRequest(config), service)
  }

  /** `generatePortrait`. */
  function GeneratePortrait(config: PortraitConfig, service: Service): (r: Result<string, Failure>)
    ensures service(PortraitRequest(config)).Err? <==> r.Err? && r.error.Transport?
    ensures service(PortraitRequest(config)).Ok? ==> r == ExtractImage(service(PortraitRequest(config)).value)
  {
    Send(PortraitRequest(config), service)
  }

  /** `removeBackground`. */
  function RemoveBackground(config: RemoveBgConfig, service: Service): (r: Result<string, Failure>)
    ensures service(RemoveBgRequest(config)).Err? <==> r.Err? && r.error.Transport?
    ensures service(RemoveBgRequest(config)).Ok? ==> r == ExtractImage(service(RemoveBgRequest(config)).value)
  {
    Send(RemoveBgRequest(config), service)
  }

  /** `generateEmote` calls `callGemini` with its instruction and the normalised image. */
  lemma EmoteCallsGemini(config: GenerationConfig, service: Service)
    ensures GenerateEmote(config, service) ==
              CallGemini(EmotePrompt(config), CleanBase64(config.imageBase64), service)
  {
  }

  /** `generatePortrait` calls `callGemini` with its instruction and the normalised image. */
  lemma PortraitCallsGemini(config: PortraitConfig, service: Service)
    ensures GeneratePortrait(config, service) ==
              CallGemini(PortraitPrompt(config), CleanBase64(config.imageBase64), service)
  {
  }

  /** `removeBackground` calls `callGemini` with its instruction and the normalised image. */
  lemma RemoveBgCallsGemini(config: RemoveBgConfig, service: Service)
    ensures RemoveBackground(config, service) ==
              CallGemini(BackgroundPrompt(config), CleanBase64(config.imageBase64), service)
  {
  }

  /**
   * Whether the selected image arrives as a data URI or as its bare base64
   * text, the request sent is the same, for all three entry points.
   */
  lemma RequestIgnoresDataUriPrefix(prompt: string, mime: string, data: string)
    requires ',' !in mime && ',' !in data && data != ""
    ensures ImageRequest(prompt, DataUri(mime, data)) == ImageRequest(prompt, data)
    ensures ImageRequest(prompt, data).parts[1].inlineData.value.data == Some(data)
  {
    CleanDataUri(mime, data);
  }

  /** The two fixed failure messages, which differ from each other. */
  lemma FailureMessages()
    ensures NoContent.Message() == "No se generó contenido."
    ensures NoValidImage.Message() == "La API no devolvió una imagen válida."
    ensures NoContent.Message() != NoValidImage.Message()
  {
    assert |NoContent.Message()| != |NoValidImage.Message()|;
  }

  /** A reply without candidates, or with an empty candidate list, is the "no content" error. */
  lemma MissingPartsIsNoContent(resp: Response)
    requires resp.candidates.None? || resp.candidates == Some([]) ||
             (|resp.candidates.value| > 0 && resp.candidates.value[0].content.None?)
    ensures ExtractImage(resp) == Err(NoContent)
  {
  }

  /** An empty part list is present, so it is the "no valid image" error and not "no content". */
  lemma EmptyPartsIsNoValidImage()
    ensures ExtractImage(Response(Some([Candidate(Some(Content(Some([]))))]))) == Err(NoValidImage)
  {
  }
}
