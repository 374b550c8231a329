/** The application session: the four state slots and the settings, and the
    handlers that change them. The service call is a parameter of Generate,
    and an upload hands over the data URL that the file reader produced. */
module App {
  import opened Wrappers
  import opened Strings
  import opened Types
  import GeminiService
  import ControlPanel
  import ImageWorkspace

  const MissingSourceMessage := "Please upload a product image first."
  const FallbackErrorMessage := "Failed to generate image. Please try again."

  /** `err.message || fallback`: the text shown for a failed generation. */
  function ErrorText(e: GeminiService.Error): (text: string)
    ensures text != ""
    ensures e.message != "" ==> text == e.message
    ensures e.message == "" ==> text == FallbackErrorMessage
  {
    if e.message != "" then e.message else FallbackErrorMessage
  }

  /** What a started generation works on: the source and the settings at the time of the click. */
  datatype Job = Job(dataUrl: string, settings: StudioSettings)

  class Session {
    var sourceImage: Option<string>
    var generatedImage: Option<string>
    var isGenerating: bool
    var error: Option<string>
    var settings: StudioSettings

    /** A fresh session: default settings, nothing uploaded, generated or failed. */
    constructor ()
      ensures sourceImage == None && generatedImage == None && !isGenerating && error == None
      ensures settings == StudioSettings(ProductOnly, WhiteStudio, Studio, OneOne, Female)
      ensures Workspace().Placeholder? && ButtonDisabled() && !ErrorShown()
    {
      sourceImage := None;
      generatedImage := None;
      isGenerating := false;
      error := None;
      settings := StudioSettings(ProductOnly, WhiteStudio, Studio, OneOne, Female);
    }

    /** `!!sourceImage`, the flag handed to the panel. */
    predicate HasSource(): (has: bool)
      reads this
      ensures has ==> sourceImage.Some?
      ensures has ==> Workspace().Canvas?
    {
      Truthy(sourceImage)
    }

    /** The error box is shown when the error slot is truthy. */
    predicate ErrorShown(): (shown: bool)
      reads this
      ensures shown ==> error.Some?
      ensures error == Some(MissingSourceMessage) ==> shown
    {
      Truthy(error)
    }

    predicate ButtonDisabled()
      reads this
    {
      ControlPanel.GenerateDisabled(isGenerating, HasSource())
    }

    function Workspace(): ImageWorkspace.Workspace
      reads this
    {
      ImageWorkspace.Render(sourceImage, generatedImage, isGenerating, settings.aspectRatio)
    }

    /** A finished upload: the new source replaces the old one, and the previous
        result and error are cleared. */
    method Upload(dataUrl: string)
      modifies this`sourceImage, this`generatedImage, this`error
      ensures sourceImage == Some(dataUrl) && generatedImage == None && error == None
      ensures dataUrl != "" ==> HasSource()
      ensures dataUrl != "" && !isGenerating ==>
        Workspace().Canvas? && Workspace().picture == ImageWorkspace.SourcePreview(dataUrl)
    {
      sourceImage := Some(dataUrl);
      generatedImage := None;
      error := None;
    }

    /** The panel's `updateSetting`, handed to `setSettings`. */
    method ChangeSetting(change: ControlPanel.Setting)
      modifies this`settings
      ensures settings == ControlPanel.UpdateSetting(old(settings), change)
      ensures ControlPanel.Holds(settings, change)
      ensures ControlPanel.ChangedKeys(old(settings), settings) <= {ControlPanel.KeyOf(change)}
    {
      settings := ControlPanel.UpdateSetting(settings, change);
    }

    /** The part of `handleGenerate` before the call: without a source, report
        it and stop; otherwise raise the busy flag, clear the error and hand
        back what the call will work on. The busy flag itself is not consulted. */
    method BeginGenerate() returns (job: Option<Job>)
      modifies this`isGenerating, this`error
      ensures !old(HasSource()) ==> job == None && error == Some(MissingSourceMessage) && isGenerating == old(isGenerating)
      ensures old(HasSource()) ==> job == Some(Job(sourceImage.value, settings)) && isGenerating && error == None
      ensures old(HasSource()) ==>
        ButtonDisabled() && Workspace().Canvas? && Workspace().overlay && Workspace().exportLink.None?
    {
      if !Truthy(sourceImage) {
        error := Some(MissingSourceMessage);
        return None;
      }
      isGenerating := true;
      error := None;
      job := Some(Job(sourceImage.value, settings));
    }

    /** The part of `handleGenerate` after the call: store the result or the
        error text, then lower the busy flag. */
    method FinishGenerate(result: Result<string, GeminiService.Error>)
      modifies this`generatedImage, this`error, this`isGenerating
      ensures !isGenerating
      ensures result.Success? ==> generatedImage == Some(result.value) && error == old(error)
      ensures result.Failure? ==> generatedImage == old(generatedImage) && error == Some(ErrorText(result.error))
      ensures result.Failure? ==> ErrorShown()
      ensures ButtonDisabled() <==> !HasSource()
    {
      match result {
        case Success(url) =>
          generatedImage := Some(url);
        case Failure(e) =>
          error := Some(ErrorText(e));
      }
      isGenerating := false;
    }

    /** `handleGenerate` as one step: the guard, the one service call, and the outcome stored. */
    method Generate(service: GeminiService.Request -> GeminiService.CallOutcome)
      modifies this`isGenerating, this`error, this`generatedImage
      ensures !old(HasSource()) ==>
        && error == Some(MissingSourceMessage)
        && generatedImage == old(generatedImage) && isGenerating == old(isGenerating)
      ensures old(HasSource()) ==> !isGenerating
      ensures old(HasSource()) ==>
        match GeminiService.Generation(sourceImage.value, settings, service)
        case Success(url) =>
          && generatedImage == Some(url) && error == None
          && Workspace() == ImageWorkspace.Canvas(
               ImageWorkspace.AspectRatioClass(settings.aspectRatio), false, ImageWorkspace.GeneratedPicture(url),
               Some(ImageWorkspace.ExportLink(url, ImageWorkspace.ExportFileName)), true)
        case Failure(e) =>
          && generatedImage == old(generatedImage) && error == Some(ErrorText(e)) && ErrorShown()
    {
      var job := BeginGenerate();
      if job.Some? {
        var result := GeminiService.GenerateProductImage(job.value.dataUrl, job.value.settings, service);
        FinishGenerate(result);
        if result.Success? {
          assert |result.value| >= |GeminiService.ResultPrefix| > 0;
        }
      }
    }

    /** The workspace's reset: forget the source, the result and the error;
        settings and the busy flag stay. */
    method Reset()
      modifies this`sourceImage, this`generatedImage, this`error
      ensures sourceImage == None && generatedImage == None && error == None
      ensures !isGenerating ==> Workspace().Placeholder?
      ensures !HasSource() && ButtonDisabled()
    {
      sourceImage := None;
      generatedImage := None;
      error := None;
    }
  }

  /** The file input stays enabled while a generation runs. An upload in
      that window replaces the source, and the outcome computed from the old
      source still lands next to the new one. */
  method UploadDuringGeneration(first: string, second: string, service: GeminiService.Request -> GeminiService.CallOutcome)
    returns (session: Session, job: Option<Job>)
    requires first != ""
    ensures job == Some(Job(first, session.settings))
    ensures session.sourceImage == Some(second) && !session.isGenerating
    ensures match GeminiService.Generation(first, session.settings, service)
      case Success(url) => session.generatedImage == Some(url) && session.error == None
      case Failure(e) => session.generatedImage == None && session.error == Some(ErrorText(e))
  {
    session := new Session();
    session.Upload(first);
    job := session.BeginGenerate();
    session.Upload(second);
    var result := GeminiService.GenerateProductImage(job.value.dataUrl, job.value.settings, service);
    session.FinishGenerate(result);
  }
}
