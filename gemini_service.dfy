/** The service layer: compiles the settings into an instruction text, builds
    the one request sent to the image model, and turns the model's answer into
    a data URL or an error. The network call itself is a parameter `service`,
    a function from the request to what the call produced. */
module GeminiService {
  import opened Wrappers
  import opened Strings
  import opened Types

  /** The MIME type every outgoing image is labelled with. */
  const OutgoingMimeType := "image/png"
  /** The prefix of every returned data URL. */
  const ResultPrefix := "data:image/png;base64,"
  const NoImageMessage := "No image was generated in the response."

  /** A thrown JavaScript error; only its message is ever read. */
  datatype Error = Error(message: string)

  /** The request: the image payload (absent when the source had no comma),
      its declared MIME type, the instruction text and the requested ratio. */
  datatype Request = Request(imageData: Option<string>, mimeType: string, prompt: string, aspectRatio: string)

  /** The parts of the model's answer that the code reads. */
  datatype Blob = Blob(data: string, mimeType: string)
  datatype Part = Part(inlineData: Option<Blob>, text: Option<string>)
  datatype Content = Content(parts: Option<seq<Part>>)
  datatype Candidate = Candidate(content: Option<Content>)
  datatype Response = Response(candidates: Option<seq<Candidate>>)

  /** What the network call produced: an answer, or an error it threw. */
  datatype CallOutcome = Responded(response: Response) | Threw(error: Error)

  // Fixed fragments of the two instruction templates.
  const ProductOnlyLead := "Keep the product in the provided image perfectly accurate in shape, color, and texture. Replace the background with a high-end, professional "
  const ProductOnlyTail := " style. Ensure soft, diffused studio lighting and natural, soft shadows. The composition should be minimal and premium. Do not modify the product details. Output should be a high-resolution professional product shot."
  const AvatarLead := "Create a high-end editorial lifestyle photograph. Place the product from the image into the scene. The product must remain perfectly accurate in shape, color, and all details. Include a realistic human "
  const AvatarMiddle := " avatar naturally interacting with or holding the product. The setting is a "
  const AvatarTail := " environment. Ensure consistent lighting, realistic skin tones, and soft shadows that blend the avatar, product, and environment together seamlessly. The product must remain the hero of the composition."

  /** The instruction text: a case split on the mode. Product-only mode names
      the background style; every other mode names the lower-cased gender and
      the scene. */
  function BuildPrompt(settings: StudioSettings): (prompt: string)
    ensures |prompt| > 0
  {
    if settings.mode == ProductOnly then
      ProductOnlyLead + BackgroundStyleValue(settings.backgroundStyle) + ProductOnlyTail
    else
      AvatarLead + Lower(GenderValue(settings.gender)) + AvatarMiddle + SceneTypeValue(settings.sceneType) + AvatarTail
  }

  /** `toLowerCase` of the two gender values. */
  lemma LowerGenderValue(g: Gender)
    ensures Lower(GenderValue(g)) == if g == Male then "male" else "female"
  {
    var w := Lower(GenderValue(g));
    if g == Male {
      assert w[0] == 'm' && w[1] == 'a' && w[2] == 'l' && w[3] == 'e';
    } else {
      assert w[0] == 'f' && w[1] == 'e' && w[2] == 'm' && w[3] == 'a' && w[4] == 'l' && w[5] == 'e';
    }
  }

  /** Product-only prompts mention the background style and ignore the scene and the gender. */
  lemma ProductOnlyPrompt(settings: StudioSettings)
    requires settings.mode == ProductOnly
    ensures Occurs(BackgroundStyleValue(settings.backgroundStyle), BuildPrompt(settings))
    ensures forall scene, gender ::
      BuildPrompt(settings.(sceneType := scene, gender := gender)) == BuildPrompt(settings)
  {
    OccursBetween(ProductOnlyLead, BackgroundStyleValue(settings.backgroundStyle), ProductOnlyTail);
  }

  /** Prompts in any other mode mention the scene and the lower-cased gender
      and ignore the background style. */
  lemma AvatarPrompt(settings: StudioSettings)
    requires settings.mode != ProductOnly
    ensures Occurs(SceneTypeValue(settings.sceneType), BuildPrompt(settings))
    ensures Occurs(Lower(GenderValue(settings.gender)), BuildPrompt(settings))
    ensures forall style :: BuildPrompt(settings.(backgroundStyle := style)) == BuildPrompt(settings)
  {
    var g := Lower(GenderValue(settings.gender));
    var v := SceneTypeValue(settings.sceneType);
    OccursBetween(AvatarLead + g + AvatarMiddle, v, AvatarTail);
    OccursBetween(AvatarLead, g, AvatarMiddle);
    OccursInExtension(g, AvatarLead + g + AvatarMiddle, v);
    OccursInExtension(g, AvatarLead + g + AvatarMiddle + v, AvatarTail);
  }

  /** Every product-only prompt is shorter than every prompt of the other mode. */
  lemma PromptLengthSeparatesModes(settings: StudioSettings)
    ensures settings.mode == ProductOnly ==> |BuildPrompt(settings)| < 400
    ensures settings.mode != ProductOnly ==> |BuildPrompt(settings)| > 400
  {
    assert |ProductOnlyLead| + |ProductOnlyTail| == 357;
    assert |AvatarLead| + |AvatarMiddle| + |AvatarTail| == 480;
    LowerGenderValue(settings.gender);
  }

  /** The prompt identifies the mode and every setting the mode makes active:
      two settings with the same prompt agree on them. */
  lemma PromptIdentifiesChoices(s: StudioSettings, t: StudioSettings)
    requires BuildPrompt(s) == BuildPrompt(t)
    ensures (s.mode == ProductOnly) == (t.mode == ProductOnly)
    ensures s.mode == ProductOnly ==> s.backgroundStyle == t.backgroundStyle
    ensures s.mode != ProductOnly ==> s.sceneType == t.sceneType && s.gender == t.gender
  {
    PromptLengthSeparatesModes(s);
    PromptLengthSeparatesModes(t);
    var p := BuildPrompt(s);
    if s.mode == ProductOnly {
      CancelAround(ProductOnlyLead, BackgroundStyleValue(s.backgroundStyle), BackgroundStyleValue(t.backgroundStyle), ProductOnlyTail);
      BackgroundStyleValueInjective(s.backgroundStyle, t.backgroundStyle);
    } else {
      var gs, gt := Lower(GenderValue(s.gender)), Lower(GenderValue(t.gender));
      LowerGenderValue(s.gender);
      LowerGenderValue(t.gender);
      assert p[|AvatarLead|] == gs[0];
      assert BuildPrompt(t)[|AvatarLead|] == gt[0];
      assert s.gender == t.gender;
      var x := AvatarLead + gs + AvatarMiddle;
      CancelAround(x, SceneTypeValue(s.sceneType), SceneTypeValue(t.sceneType), AvatarTail);
      SceneTypeValueInjective(s.sceneType, t.sceneType);
    }
  }

  /** `dataUrl.split(',')[1]`: the second comma-separated field, or nothing. */
  function Payload(dataUrl: string): (payload: Option<string>)
    ensures payload.None? <==> ',' !in dataUrl
    ensures payload.Some? ==> ',' !in payload.value
  {
    SplitSingleFieldIff(dataUrl, ',');
    SplitJoin(dataUrl, ',');
    var fields := Split(dataUrl, ',');
    if |fields| >= 2 then Some(fields[1]) else None
  }

  /** `s` is a comma-free `pre`, a comma, a comma-free `p`, then either the
      end or text starting with another comma. */
  ghost predicate CommaFields(s: string, pre: string, p: string, post: string) {
    && s == pre + [','] + p + post
    && ',' !in pre && ',' !in p
    && (post == [] || post[0] == ',')
  }

  /** The payload is the text between the first comma and the next one (or the end). */
  lemma PayloadBetweenFirstCommas(s: string, pre: string, p: string, post: string)
    requires CommaFields(s, pre, p, post)
    ensures Payload(s) == Some(p)
  {
    assert pre + [','] + p + post == pre + [','] + (p + post);
    SplitAtFirstSeparator(pre, ',', p + post);
    if post == [] {
      assert p + post == p;
      SplitWithoutSeparator(p, ',');
    } else {
      assert p + post == p + [','] + post[1..];
      SplitAtFirstSeparator(p, ',', post[1..]);
    }
  }

  /** Conversely, any payload is found that way: a comma-free prefix, a comma,
      the payload (comma-free), then either the end or another comma. */
  lemma PayloadIsSecondField(dataUrl: string)
    requires ',' in dataUrl
    ensures Payload(dataUrl).Some?
    ensures exists pre, post :: CommaFields(dataUrl, pre, Payload(dataUrl).value, post)
  {
    var f := Split(dataUrl, ',');
    SplitSingleFieldIff(dataUrl, ',');
    SplitJoin(dataUrl, ',');
    var pre, p, post := f[0], f[1], TailAfterSecondField(f);
    assert Payload(dataUrl) == Some(p);
    assert dataUrl == pre + [','] + p + post by {
      JoinFirstTwo(f);
    }
    assert ',' !in pre && ',' !in p;
    assert CommaFields(dataUrl, pre, Payload(dataUrl).value, post);
  }

  /** What follows the second field when joining fields with commas. */
  function TailAfterSecondField(f: seq<string>): (post: string)
    requires |f| >= 2
    ensures post == [] || post[0] == ','
  {
    if |f| == 2 then [] else [','] + Join(f[2..], ',')
  }

  lemma JoinFirstTwo(f: seq<string>)
    requires |f| >= 2
    ensures Join(f, ',') == f[0] + [','] + f[1] + TailAfterSecondField(f)
  {
    assert f[1..][1..] == f[2..];
    assert Join(f[1..], ',') == f[1] + TailAfterSecondField(f);
  }

  /** The data URL returned for image data `d`. */
  function ResultUrl(d: string): (url: string)
    ensures |url| >= |ResultPrefix| && url[..|ResultPrefix|] == ResultPrefix
  {
    ResultPrefix + d
  }

  /** Extracting the payload of a returned data URL gives the image data back,
      provided the data has no comma (base64 never does). */
  lemma ResultUrlRoundTrip(d: string)
    requires ',' !in d
    ensures Payload(ResultUrl(d)) == Some(d)
  {
    var pre := "data:image/png;base64";
    assert ResultUrl(d) == pre + [','] + d + [];
    PayloadBetweenFirstCommas(ResultUrl(d), pre, d, []);
  }

  /** The request built for a source data URL and the settings. */
  function BuildRequest(dataUrl: string, settings: StudioSettings): (request: Request)
    ensures request.mimeType == "image/png"
    ensures request.imageData.Some? <==> ',' in dataUrl
    ensures request.prompt != ""
    ensures request.imageData == Payload(dataUrl)
    ensures request.prompt == BuildPrompt(settings)
    ensures request.aspectRatio == AspectRatioValue(settings.aspectRatio)
  {
    Request(Payload(dataUrl), OutgoingMimeType, BuildPrompt(settings), AspectRatioValue(settings.aspectRatio))
  }

  /** The outgoing request carries the source payload untouched and labels it
      image/png whatever type the source declared; the ratio and the prompt
      come from the settings alone. */
  lemma RequestIgnoresDeclaredType(declared1: string, declared2: string, d: string, settings: StudioSettings)
    requires ',' !in declared1 && ',' !in declared2 && ',' !in d
    ensures BuildRequest(declared1 + [','] + d, settings) == BuildRequest(declared2 + [','] + d, settings)
    ensures BuildRequest(declared1 + [','] + d, settings).imageData == Some(d)
    ensures BuildRequest(declared1 + [','] + d, settings).mimeType == "image/png"
    ensures BuildRequest(declared1 + [','] + d, settings).aspectRatio == AspectRatioValue(settings.aspectRatio)
  {
    assert declared1 + [','] + d == declared1 + [','] + d + [];
    assert declared2 + [','] + d == declared2 + [','] + d + [];
    PayloadBetweenFirstCommas(declared1 + [','] + d, declared1, d, []);
    PayloadBetweenFirstCommas(declared2 + [','] + d, declared2, d, []);
  }

  /** A JPEG source is sent as its payload, relabelled image/png. */
  lemma JpegSourceIsRelabelled(settings: StudioSettings)
    ensures BuildRequest("data:image/jpeg;base64,XYZ==", settings).imageData == Some("XYZ==")
    ensures BuildRequest("data:image/jpeg;base64,XYZ==", settings).mimeType == "image/png"
  {
    RequestIgnoresDeclaredType("data:image/jpeg;base64", "data:image/jpeg;base64", "XYZ==", settings);
    assert "data:image/jpeg;base64" + [','] + "XYZ==" == "data:image/jpeg;base64,XYZ==";
  }

  /** `response.candidates?.[0]?.content?.parts || []`. */
  function ResponseParts(response: Response): (parts: seq<Part>)
    ensures |parts| > 0 ==>
      && response.candidates.Some? && |response.candidates.value| > 0
      && response.candidates.value[0].content.Some?
      && response.candidates.value[0].content.value.parts == Some(parts)
    ensures (&& response.candidates.Some? && |response.candidates.value| > 0
             && response.candidates.value[0].content.Some?
             && response.candidates.value[0].content.value.parts.Some?) ==>
      parts == response.candidates.value[0].content.value.parts.value
  {
    match response.candidates
    case None => []
    case Some(candidates) =>
      if |candidates| == 0 then []
      else match candidates[0].content
        case None => []
        case Some(content) => content.parts.GetOr([])
  }

  /** The data of the first part that carries inline data, if any. */
  function FirstImageData(parts: seq<Part>): (d: Option<string>)
    ensures d.Some? ==> exists k :: 0 <= k < |parts| && parts[k].inlineData.Some? && parts[k].inlineData.value.data == d.value
  {
    if parts == [] then None
    else if parts[0].inlineData.Some? then Some(parts[0].inlineData.value.data)
    else
      assert forall k :: 0 <= k < |parts| - 1 ==> parts[1..][k] == parts[k + 1];
      FirstImageData(parts[1..])
  }

  /** First match wins: the result is the data of the earliest image part. */
  lemma {:induction false} FirstImageWins(parts: seq<Part>, k: nat)
    requires k < |parts| && parts[k].inlineData.Some?
    requires forall j :: 0 <= j < k ==> parts[j].inlineData.None?
    ensures FirstImageData(parts) == Some(parts[k].inlineData.value.data)
  {
    if k > 0 {
      FirstImageWins(parts[1..], k - 1);
    }
  }

  /** There is no image exactly when no part carries inline data. */
  lemma {:induction false} NoImageIff(parts: seq<Part>)
    ensures FirstImageData(parts).None? <==> forall k :: 0 <= k < |parts| ==> parts[k].inlineData.None?
  {
    if parts != [] {
      NoImageIff(parts[1..]);
      assert forall k :: 1 <= k < |parts| ==> parts[k] == parts[1..][k - 1];
    }
  }

  /** Parts after an image part are ignored. */
  lemma {:induction false} LaterPartsIgnored(parts: seq<Part>, later: seq<Part>)
    requires FirstImageData(parts).Some?
    ensures FirstImageData(parts + later) == FirstImageData(parts)
  {
    assert (parts + later)[0] == parts[0];
    if parts[0].inlineData.None? {
      assert (parts + later)[1..] == parts[1..] + later;
      LaterPartsIgnored(parts[1..], later);
    }
  }

  /** What one generation produces: the error the call threw, unchanged; or
      the first inline image as a data URL; or the no-image error. */
  function Generation(dataUrl: string, settings: StudioSettings, service: Request -> CallOutcome): (result: Result<string, Error>)
    ensures result.Success? ==> |result.value| >= |ResultPrefix| && result.value[..|ResultPrefix|] == ResultPrefix
    ensures result.Failure? ==>
      result.error == Error(NoImageMessage) || service(BuildRequest(dataUrl, settings)) == Threw(result.error)
  {
    match service(BuildRequest(dataUrl, settings))
    case Threw(e) => Failure(e)
    case Responded(response) =>
      match FirstImageData(ResponseParts(response))
      case Some(d) => Success(ResultUrl(d))
      case None => Failure(Error(NoImageMessage))
  }

  /** One generation: build the request, call the service once, scan the
      answer's parts in order and return at the first one with inline data. */
  method GenerateProductImage(base64Image: string, settings: StudioSettings, service: Request -> CallOutcome)
    returns (result: Result<string, Error>)
    ensures result == Generation(base64Image, settings, service)
  {
    var request := BuildRequest(base64Image, settings);
    var outcome := service(request);
    match outcome
    case Threw(e) =>
      result := Failure(e);
    case Responded(response) =>
      var parts := ResponseParts(response);
      var i := 0;
      while i < |parts|
        invariant 0 <= i <= |parts|
        invariant FirstImageData(parts[i..]) == FirstImageData(parts)
      {
        if parts[i].inlineData.Some? {
          return Success(ResultUrl(parts[i].inlineData.value.data));
        }
        assert parts[i..][1..] == parts[i + 1..];
        i := i + 1;
      }
      result := Failure(Error(NoImageMessage));
  }

  /** A failed call is passed on unchanged. */
  lemma GenerationRethrows(dataUrl: string, settings: StudioSettings, service: Request -> CallOutcome, e: Error)
    requires service(BuildRequest(dataUrl, settings)) == Threw(e)
    ensures Generation(dataUrl, settings, service) == Failure(e)
  {
  }

  /** An answer with no inline image fails with the no-image message. */
  lemma GenerationWithoutImage(dataUrl: string, settings: StudioSettings, service: Request -> CallOutcome, response: Response)
    requires service(BuildRequest(dataUrl, settings)) == Responded(response)
    requires forall k :: 0 <= k < |ResponseParts(response)| ==> ResponseParts(response)[k].inlineData.None?
    ensures Generation(dataUrl, settings, service) == Failure(Error(NoImageMessage))
  {
    NoImageIff(ResponseParts(response));
  }

  /** An answer whose earliest image part is part k yields that part's data as a PNG data URL. */
  lemma GenerationReturnsFirstImage(dataUrl: string, settings: StudioSettings, service: Request -> CallOutcome, response: Response, k: nat)
    requires service(BuildRequest(dataUrl, settings)) == Responded(response)
    requires k < |ResponseParts(response)| && ResponseParts(response)[k].inlineData.Some?
    requires forall j :: 0 <= j < k ==> ResponseParts(response)[j].inlineData.None?
    ensures Generation(dataUrl, settings, service) == Success(ResultPrefix + ResponseParts(response)[k].inlineData.value.data)
  {
    FirstImageWins(ResponseParts(response), k);
  }

  /** A single image part "ABC123" gives "data:image/png;base64,ABC123". */
  lemma SingleImagePartExample(dataUrl: string, settings: StudioSettings)
    ensures
      var part := Part(Some(Blob("ABC123", "image/png")), None);
      var response := Response(Some([Candidate(Some(Content(Some([part]))))]));
      Generation(dataUrl, settings, _ => Responded(response)) == Success("data:image/png;base64,ABC123")
  {
    var part := Part(Some(Blob("ABC123", "image/png")), None);
    var response := Response(Some([Candidate(Some(Content(Some([part]))))]));
    assert ResponseParts(response) == [part];
    assert FirstImageData([part]) == Some("ABC123");
    assert ResultUrl("ABC123") == "data:image/png;base64,ABC123";
  }
}
