/**
 * The pure parts of the image-generation service (services/geminiService.ts):
 * cleaning the uploaded data URL, the niche and style instruction tables,
 * the composed prompt, the request it is sent with, and the scan of the
 * multi-part response for the first part that carries image data. The
 * network call itself is not modelled: its response is an input.
 */
module Gemini {
  import opened Wrappers
  import opened Types
  import Text

  // ----- Cleaning the uploaded image -------------------------------------

  /** `r` is the text of `s` from `from` up to the next comma or the end. */
  ghost predicate SegmentAt(s: string, from: int, r: string) {
    0 <= from && from + |r| <= |s| && s[from..from + |r|] == r && ',' !in r &&
    (from + |r| == |s| || s[from + |r|] == ',')
  }

  /** The text of `rest` up to its first comma, or all of it. */
  function FirstSegment(rest: string): (r: string)
    ensures SegmentAt(rest, 0, r)
  {
    match Text.IndexOf(rest, ',')
    case None => rest
    case Some(j) => rest[..j]
  }

  lemma SegmentShift(s: string, from: int, r: string)
    requires 0 <= from <= |s| && SegmentAt(s[from..], 0, r)
    ensures SegmentAt(s, from, r)
  {
    assert s[from..][0..|r|] == s[from..from + |r|];
  }

  /**
   * `s.includes(',') ? s.split(',')[1] : s`: a data URL loses its
   * `data:...;base64,` header; text without a comma is sent as it is.
   */
  function CleanBase64(s: string): (r: string)
    ensures ',' !in s ==> r == s
    ensures ',' in s ==> exists k :: 0 <= k < |s| && s[k] == ',' && ',' !in s[..k] && SegmentAt(s, k + 1, r)
  {
    match Text.IndexOf(s, ',')
    case None => s
    case Some(k) =>
      var r := FirstSegment(s[k + 1..]);
      SegmentShift(s, k + 1, r);
      r
  }

  /** The header the service puts in front of the returned image data. */
  const DataUrlPrefix: string := "data:image/png;base64,"

  /** Cleaning an image the service returned gives back its raw data. */
  lemma CleanReturnedImage(data: string)
    requires ',' !in data
    ensures CleanBase64(DataUrlPrefix + data) == data
  {
    var s := DataUrlPrefix + data;
    assert s[21] == ',';
    assert ',' !in s[..21];
    assert s[22..] == data;
  }

  // ----- Instruction tables ----------------------------------------------

  /** The niche instruction of each business type. */
  function NicheText(b: BusinessType): string {
    match b
    case Electronics => "Focus on sleek surfaces, tech-ready lighting, and high-precision detail. Emphasize metallic or glass textures. Think flagship smartphone or luxury laptop photography."
    case Footwear => "Focus on dynamic angles, texture of the material (leather, fabric), and clean floor reflections. Athletic or luxury shoe boutique style."
    case Fashion => "Focus on fabric drape, soft lighting, and an elegant professional fashion studio environment. High-end apparel look."
    case Lingerie => "Focus on soft, intimate lighting, delicate shadows, and high-end boutique or silk-draped backgrounds. Sophisticated and tasteful."
    case Handbags => "Focus on luxury placement, premium leather sheen, and sophisticated accessory staging. High-end leather goods look."
    case Jewelry => "Focus on extreme sparkle, macro-detail, sharp focus, and dramatic 'black-box' or marble lighting. Diamond and gold brilliance."
    case Accessories => "Focus on fine details of hair accessories, clips, or small jewelry. Delicate lighting, sharp focus on small textures like pearls or velvet."
    case HomeDecor => "Focus on cozy interior aesthetics, natural light, and realistic room placement. Interior design magazine style."
    case Cosmetics => "Focus on clean, hygienic, splash effects or petal-soft textures and bright airy studio lighting. Premium skincare or makeup aesthetics."
  }

  const GenericNiche: string := "Professional commercial product photography."

  /** `getBusinessInstruction(type)`: the table entry, or the fallback for an unknown name. */
  function BusinessInstruction(name: string): (r: string)
    ensures forall b: BusinessType :: b.Name() == name ==> r == NicheText(b)
    ensures (forall b: BusinessType :: b.Name() != name) ==> r == GenericNiche
  {
    match BusinessTypeOfName(name)
    case Some(v) =>
      assert forall b: BusinessType :: b.Name() == name ==> b == v by {
        forall b: BusinessType ensures b.Name() == name ==> b == v {
          BusinessNameInjective(b, v);
        }
      }
      NicheText(v)
    case None => GenericNiche
  }

  /** The environment instruction of each scene style. */
  function StyleText(s: SceneStyle): string {
    match s
    case Studio => "Pure white or soft grey professional cyclorama background, standard 3-point studio lighting, high commercial quality."
    case Lifestyle => "Placed in a realistic everyday high-end environment, warm natural lighting, shallow depth of field."
    case Nature => "Placed outdoors, organic elements like wood, stone, or water, golden hour sunlight."
    case Luxury => "Dark marble, gold accents, velvet textures, dramatic moody spotlighting, ultra-premium feel."
    case Minimalist => "Clean geometric shapes, monochromatic palette, soft shadows, plenty of negative space."
    case Urban => "Industrial concrete, city bokeh background, cool tones, modern edgy vibe."
  }

  const GenericStyle: string := "Professional studio setup."

  /** `getStyleInstruction(style)`: the table entry, or the fallback for an unknown name. */
  function StyleInstruction(name: string): (r: string)
    ensures forall s: SceneStyle :: s.Name() == name ==> r == StyleText(s)
    ensures (forall s: SceneStyle :: s.Name() != name) ==> r == GenericStyle
  {
    match SceneStyleOfName(name)
    case Some(v) =>
      assert forall s: SceneStyle :: s.Name() == name ==> s == v by {
        forall s: SceneStyle ensures s.Name() == name ==> s == v {
          StyleNameInjective(s, v);
        }
      }
      StyleText(v)
    case None => GenericStyle
  }

  // ----- The prompt ------------------------------------------------------

  const TaskLine: string := "TASK: High-end Professional Product Visualization."
  const ContextLabel: string := "\n    BUSINESS CONTEXT: "
  const NicheLabel: string := ".\n    NICHE REQUIREMENTS: "
  const StyleLabel: string := "\n    ENVIRONMENT STYLE: "
  const RequestLabel: string := "\n    USER REQUEST: "
  const ClosingInstruction: string :=
    "\n    \n    INSTRUCTION: Take the uploaded product image and place it in a professional commercial environment.\n" +
    "    Maintain the EXACT shape, color, and brand details of the product.\n" +
    "    Do not alter the product's identity. \n" +
    "    Transform the lighting, shadows, and background into a world-class studio shot.\n" +
    "    The final output should look like a high-budget professional advertisement.\n  "

  /** The prompt template, filled with the niche name and the three instructions. */
  function ComposePrompt(businessType: string, niche: string, style: string, request: string): string {
    "\n    " + (TaskLine + (ContextLabel + (businessType + (NicheLabel + (niche + (StyleLabel + (style +
    (RequestLabel + (request + ClosingInstruction)))))))))
  }

  /** `pieces` occur in `s` one after another, without overlapping. */
  ghost predicate InOrder(s: string, pieces: seq<string>)
    decreases |pieces|
  {
    |pieces| == 0 ||
    exists i :: Text.OccursAt(s, pieces[0], i) && InOrder(s[i + |pieces[0]|..], pieces[1..])
  }

  /** A piece after a gap, in front of pieces already in order, keeps them all in order. */
  lemma InOrderCons(gap: string, piece: string, rest: string, tail: seq<string>)
    requires InOrder(rest, tail)
    ensures InOrder(gap + (piece + rest), [piece] + tail)
  {
    var s := gap + (piece + rest);
    var pieces := [piece] + tail;
    assert s[|gap|..|gap| + |piece|] == piece;
    assert s[|gap| + |piece|..] == rest;
    assert pieces[0] == piece && pieces[1..] == tail;
    assert Text.OccursAt(s, pieces[0], |gap|);
  }

  /**
   * The prompt for a niche and a style: the task line, the niche name, the
   * niche instruction, the style instruction, the user's text verbatim and
   * the closing identity-preservation instruction, in this order.
   */
  function PromptFor(b: BusinessType, s: SceneStyle, request: string): (r: string)
    ensures InOrder(r, [TaskLine, b.Name(), NicheText(b), StyleText(s), request, ClosingInstruction])
    ensures Text.IsPrefix("\n    " + TaskLine, r)
  {
    var r := ComposePrompt(b.Name(), BusinessInstruction(b.Name()), StyleInstruction(s.Name()), request);
    TemplateInOrder(b.Name(), NicheText(b), StyleText(s), request);
    r
  }

  /** The template places its six pieces in order, whatever they contain. */
  lemma TemplateInOrder(businessType: string, niche: string, style: string, request: string)
    ensures InOrder(ComposePrompt(businessType, niche, style, request),
                    [TaskLine, businessType, niche, style, request, ClosingInstruction])
    ensures Text.IsPrefix("\n    " + TaskLine, ComposePrompt(businessType, niche, style, request))
  {
    FilledTemplateInOrder("\n    ", TaskLine, ContextLabel, businessType, NicheLabel, niche, StyleLabel, style,
                          RequestLabel, request, ClosingInstruction);
  }

  lemma FilledTemplateInOrder(g0: string, p0: string, g1: string, p1: string, g2: string, p2: string,
                              g3: string, p3: string, g4: string, p4: string, p5: string)
    ensures InOrder(g0 + (p0 + (g1 + (p1 + (g2 + (p2 + (g3 + (p3 + (g4 + (p4 + p5))))))))),
                    [p0, p1, p2, p3, p4, p5])
    ensures Text.IsPrefix(g0 + p0, g0 + (p0 + (g1 + (p1 + (g2 + (p2 + (g3 + (p3 + (g4 + (p4 + p5))))))))))
  {
    var t1 := g1 + (p1 + (g2 + (p2 + (g3 + (p3 + (g4 + (p4 + p5)))))));
    FiveInOrder(g1, p1, g2, p2, g3, p3, g4, p4, p5);
    InOrderCons(g0, p0, t1, [p1, p2, p3, p4, p5]);
    assert [p0] + [p1, p2, p3, p4, p5] == [p0, p1, p2, p3, p4, p5];
    assert g0 + (p0 + t1) == (g0 + p0) + t1;
  }

  lemma FiveInOrder(g1: string, p1: string, g2: string, p2: string, g3: string, p3: string,
                    g4: string, p4: string, p5: string)
    ensures InOrder(g1 + (p1 + (g2 + (p2 + (g3 + (p3 + (g4 + (p4 + p5))))))), [p1, p2, p3, p4, p5])
  {
    FourInOrder(g2, p2, g3, p3, g4, p4, p5);
    InOrderCons(g1, p1, g2 + (p2 + (g3 + (p3 + (g4 + (p4 + p5))))), [p2, p3, p4, p5]);
    assert [p1] + [p2, p3, p4, p5] == [p1, p2, p3, p4, p5];
  }

  lemma FourInOrder(g2: string, p2: string, g3: string, p3: string, g4: string, p4: string, p5: string)
    ensures InOrder(g2 + (p2 + (g3 + (p3 + (g4 + (p4 + p5))))), [p2, p3, p4, p5])
  {
    ThreeInOrder(g3, p3, g4, p4, p5);
    InOrderCons(g2, p2, g3 + (p3 + (g4 + (p4 + p5))), [p3, p4, p5]);
    assert [p2] + [p3, p4, p5] == [p2, p3, p4, p5];
  }

  lemma ThreeInOrder(g3: string, p3: string, g4: string, p4: string, p5: string)
    ensures InOrder(g3 + (p3 + (g4 + (p4 + p5))), [p3, p4, p5])
  {
    TwoInOrder(g4, p4, p5);
    InOrderCons(g3, p3, g4 + (p4 + p5), [p4, p5]);
    assert [p3] + [p4, p5] == [p3, p4, p5];
  }

  lemma TwoInOrder(g4: string, p4: string, p5: string)
    ensures InOrder(g4 + (p4 + p5), [p4, p5])
  {
    InOrderCons("", p5, "", []);
    assert "" + (p5 + "") == p5 && [p5] + [] == [p5];
    InOrderCons(g4, p4, p5, [p5]);
    assert [p4] + [p5] == [p4, p5];
  }

  // ----- The request -----------------------------------------------------

  const ImageModel: string := "gemini-3-pro-image-preview"

  datatype InlineData = InlineData(mimeType: string, data: string)

  /** One part of a message: inline binary data, text, or both absent. */
  datatype Part = Part(inlineData: Option<InlineData>, text: Option<string>)

  datatype ImageConfig = ImageConfig(aspectRatio: string, imageSize: string)

  datatype Request = Request(model: string, parts: seq<Part>, config: ImageConfig)

  /** The `generateContent` call: the cleaned image first, the prompt second. */
  function BuildRequest(sourceImage: string, b: BusinessType, s: SceneStyle, quality: ImageQuality,
                        request: string): (r: Request)
    ensures r.model == ImageModel
    ensures r.config.aspectRatio == "1:1" && r.config.imageSize == quality.Code()
    ensures |r.parts| == 2
    ensures r.parts[0].inlineData.Some? && r.parts[0].inlineData.value.mimeType == "image/jpeg"
    ensures r.parts[0].inlineData.value.data == CleanBase64(sourceImage)
    ensures ',' in sourceImage ==> ',' !in r.parts[0].inlineData.value.data
    ensures ',' !in sourceImage ==> r.parts[0].inlineData.value.data == sourceImage
    ensures r.parts[1].text.Some? && r.parts[1].text.value == PromptFor(b, s, request)
    ensures InOrder(r.parts[1].text.value, [TaskLine, b.Name(), NicheText(b), StyleText(s), request, ClosingInstruction])
  {
    Request(ImageModel,
            [Part(Some(InlineData("image/jpeg", CleanBase64(sourceImage))), None),
             Part(None, Some(PromptFor(b, s, request)))],
            ImageConfig("1:1", quality.Code()))
  }

  // ----- The response ----------------------------------------------------

  /** `part.inlineData && part.inlineData.data`: present and non-empty. */
  predicate CarriesImage(p: Part) {
    p.inlineData.Some? && p.inlineData.value.data != ""
  }

  /** No part before position (`ci`, `pi`), candidates outer and parts inner, carries an image. */
  ghost predicate NoImageBefore(candidates: seq<seq<Part>>, ci: int, pi: int) {
    forall c, p :: 0 <= c < |candidates| && 0 <= p < |candidates[c]| && (c < ci || (c == ci && p < pi)) ==>
      !CarriesImage(candidates[c][p])
  }

  datatype Extraction = Image(dataUrl: string) | NoImage

  /**
   * The scan over `response.candidates`: the first part carrying image data,
   * as a PNG data URL, or `NoImage` when no part does.
   */
  method ExtractImage(candidates: seq<seq<Part>>) returns (r: Extraction)
    ensures r.NoImage? <==>
      forall c, p :: 0 <= c < |candidates| && 0 <= p < |candidates[c]| ==> !CarriesImage(candidates[c][p])
    ensures r.Image? ==>
      exists c, p :: 0 <= c < |candidates| && 0 <= p < |candidates[c]| && CarriesImage(candidates[c][p]) &&
                     NoImageBefore(candidates, c, p) &&
                     r.dataUrl == DataUrlPrefix + candidates[c][p].inlineData.value.data
  {
    var c := 0;
    while c < |candidates|
      invariant 0 <= c <= |candidates|
      invariant NoImageBefore(candidates, c, 0)
    {
      var p := 0;
      while p < |candidates[c]|
        invariant 0 <= p <= |candidates[c]|
        invariant NoImageBefore(candidates, c, p)
      {
        if CarriesImage(candidates[c][p]) {
          return Image(DataUrlPrefix + candidates[c][p].inlineData.value.data);
        }
        p := p + 1;
      }
      c := c + 1;
    }
    return NoImage;
  }

  const NoImageMessage: string :=
    "No image data returned from the model. Please check your API project permissions."

  /** What the generator hands back to its caller: an image, or an error with an optional message. */
  datatype Outcome = Produced(dataUrl: string) | Failed(message: Option<string>)

  /** A response without image data surfaces as an error carrying the no-image message. */
  function OutcomeOf(e: Extraction): (o: Outcome)
    ensures e.Image? <==> o.Produced?
    ensures e.Image? ==> o.dataUrl == e.dataUrl
    ensures e.NoImage? ==> o.message == Some(NoImageMessage)
  {
    match e
    case Image(url) => Produced(url)
    case NoImage => Failed(Some(NoImageMessage))
  }
}
