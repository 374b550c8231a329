/** The workspace: which canvas class a ratio selects, and what is shown for
    a given source image, generated image and busy flag. */
module ImageWorkspace {
  import opened Wrappers
  import opened Strings
  import opened Types

  /** The download name of the exported image. */
  const ExportFileName := "studio-shot.png"

  /** A ratio value written with '/' in place of ':', as Tailwind's
      arbitrary aspect classes spell it. */
  function Slashed(v: string): (r: string)
    ensures |r| == |v|
    ensures ':' !in r
  {
    seq(|v|, i requires 0 <= i < |v| => if v[i] == ':' then '/' else v[i])
  }

  /** The canvas class for a ratio (the `switch` with 1:1 as its default). */
  function AspectRatioClass(ratio: AspectRatio): (c: string)
    ensures |c| > 7 && c[..7] == "aspect-"
    ensures c == "aspect-square" <==> ratio == OneOne
    ensures ratio != OneOne ==> c == "aspect-[" + Slashed(AspectRatioValue(ratio)) + "]"
  {
    match ratio
    case SixteenNine => "aspect-[16/9]"
    case FourThree => "aspect-[4/3]"
    case OneOne => "aspect-square"
  }

  /** Different ratios give different canvas classes. */
  lemma AspectRatioClassInjective(a: AspectRatio, b: AspectRatio)
    ensures AspectRatioClass(a) == AspectRatioClass(b) ==> a == b
  {
  }

  /** The picture on the canvas. */
  datatype Picture = GeneratedPicture(src: string) | SourcePreview(src: string) | NoPicture

  /** The export link: where it points and the name it downloads as. */
  datatype ExportLink = ExportLink(href: string, download: string)

  /** What the workspace renders: the empty placeholder, or the canvas with
      its processing overlay, picture, export link and the footer that holds
      the reset button. */
  datatype Workspace =
    | Placeholder(ratioClass: string)
    | Canvas(ratioClass: string, overlay: bool, picture: Picture, exportLink: Option<ExportLink>, footer: bool)

  /** The rendering decisions, made on JavaScript truthiness of the two images. */
  function Render(source: Option<string>, generated: Option<string>, isGenerating: bool, ratio: AspectRatio): (w: Workspace)
    ensures w.Placeholder? ==> !isGenerating && !Truthy(source) && !Truthy(generated)
    ensures w.Canvas? ==> w.overlay || !w.picture.NoPicture?
    ensures w.ratioClass == AspectRatioClass(ratio)
    ensures isGenerating ==> w.Canvas? && w.overlay
    ensures w.Canvas? && w.overlay ==> isGenerating
    ensures Truthy(generated) ==> w.Canvas? && w.picture == GeneratedPicture(generated.value)
    ensures w.Canvas? && w.picture.SourcePreview? ==> !Truthy(generated) && Truthy(source) && source.value == w.picture.src
    ensures w.Canvas? && w.picture.GeneratedPicture? ==> Truthy(generated)
  {
    var ratioClass := AspectRatioClass(ratio);
    if !Truthy(source) && !Truthy(generated) && !isGenerating then
      Placeholder(ratioClass)
    else
      Canvas(
        ratioClass,
        isGenerating,
        if Truthy(generated) then GeneratedPicture(generated.value)
        else if Truthy(source) then SourcePreview(source.value)
        else NoPicture,
        if Truthy(generated) && !isGenerating then Some(ExportLink(generated.value, ExportFileName)) else None,
        !isGenerating && Truthy(generated))
  }

  /** The canvas is blank (no picture at all) exactly while a generation
      runs with neither image present. */
  lemma BlankCanvasOnlyWhileGenerating(source: Option<string>, generated: Option<string>, isGenerating: bool, ratio: AspectRatio)
    ensures var w := Render(source, generated, isGenerating, ratio);
      w.Canvas? && w.picture.NoPicture? <==> isGenerating && !Truthy(source) && !Truthy(generated)
  {
  }

  /** Once there is a generated image the source no longer affects what is shown. */
  lemma GeneratedImageHidesSource(source1: Option<string>, source2: Option<string>, generated: Option<string>, isGenerating: bool, ratio: AspectRatio)
    requires Truthy(generated)
    ensures Render(source1, generated, isGenerating, ratio) == Render(source2, generated, isGenerating, ratio)
    ensures Render(source1, generated, isGenerating, ratio).Canvas?
    ensures Render(source1, generated, isGenerating, ratio).picture == GeneratedPicture(generated.value)
  {
  }

  /** The export link and the footer come together, exactly when a generated
      image is shown and nothing is running; the link points at the image on
      the canvas and downloads as studio-shot.png. */
  lemma ExportGoesWithFinishedImage(source: Option<string>, generated: Option<string>, isGenerating: bool, ratio: AspectRatio)
    requires Render(source, generated, isGenerating, ratio).Canvas?
    ensures var w := Render(source, generated, isGenerating, ratio);
      && (w.exportLink.Some? <==> Truthy(generated) && !isGenerating)
      && (w.footer <==> w.exportLink.Some?)
      && (w.exportLink.Some? ==> w.picture == GeneratedPicture(w.exportLink.value.href) && w.exportLink.value.download == "studio-shot.png")
      && (w.overlay ==> w.exportLink.None?)
  {
  }
}
