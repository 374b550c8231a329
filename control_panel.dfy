/** The settings panel: replacing one setting, which choices are offered,
    which selectors each mode shows, when the generate button is disabled and
    when an upload is started. */
module ControlPanel {
  import opened Wrappers
  import opened Types
  import GeminiService

  /** The names of the five settings. */
  datatype SettingKey = ModeKey | BackgroundKey | SceneKey | RatioKey | GenderKey

  /** A setting name together with a value of that setting's type. */
  datatype Setting =
    | SetMode(mode: AppMode)
    | SetBackground(style: BackgroundStyle)
    | SetScene(scene: SceneType)
    | SetRatio(ratio: AspectRatio)
    | SetGender(gender: Gender)

  function KeyOf(change: Setting): SettingKey {
    match change
    case SetMode(_) => ModeKey
    case SetBackground(_) => BackgroundKey
    case SetScene(_) => SceneKey
    case SetRatio(_) => RatioKey
    case SetGender(_) => GenderKey
  }

  /** The field named by `change` holds `change`'s value. */
  predicate Holds(settings: StudioSettings, change: Setting) {
    match change
    case SetMode(m) => settings.mode == m
    case SetBackground(b) => settings.backgroundStyle == b
    case SetScene(s) => settings.sceneType == s
    case SetRatio(r) => settings.aspectRatio == r
    case SetGender(g) => settings.gender == g
  }

  /** The names of the fields on which two records differ. */
  function ChangedKeys(a: StudioSettings, b: StudioSettings): set<SettingKey> {
    (if a.mode != b.mode then {ModeKey} else {})
    + (if a.backgroundStyle != b.backgroundStyle then {BackgroundKey} else {})
    + (if a.sceneType != b.sceneType then {SceneKey} else {})
    + (if a.aspectRatio != b.aspectRatio then {RatioKey} else {})
    + (if a.gender != b.gender then {GenderKey} else {})
  }

  /** `{ ...settings, [key]: value }`: the named field takes the new value and
      no other field changes. */
  function UpdateSetting(settings: StudioSettings, change: Setting): (updated: StudioSettings)
    ensures Holds(updated, change)
    ensures ChangedKeys(settings, updated) <= {KeyOf(change)}
  {
    match change
    case SetMode(m) => settings.(mode := m)
    case SetBackground(b) => settings.(backgroundStyle := b)
    case SetScene(s) => settings.(sceneType := s)
    case SetRatio(r) => settings.(aspectRatio := r)
    case SetGender(g) => settings.(gender := g)
  }

  /** Setting a field to the value it already has changes nothing; so
      repeating an update changes nothing either. */
  lemma UpdateSettingIdempotent(settings: StudioSettings, change: Setting)
    ensures Holds(settings, change) ==> UpdateSetting(settings, change) == settings
    ensures UpdateSetting(UpdateSetting(settings, change), change) == UpdateSetting(settings, change)
  {
  }

  /** Updates of two different fields commute. */
  lemma UpdatesOfDifferentKeysCommute(settings: StudioSettings, c: Setting, d: Setting)
    requires KeyOf(c) != KeyOf(d)
    ensures UpdateSetting(UpdateSetting(settings, c), d) == UpdateSetting(UpdateSetting(settings, d), c)
  {
  }

  /** `Object.values(AspectRatio)`: every ratio, once, in declaration order. */
  function AspectRatioChoices(): (choices: seq<AspectRatio>)
    ensures forall i, j :: 0 <= i < j < |choices| ==> choices[i] != choices[j]
  {
    [OneOne, SixteenNine, FourThree]
  }

  /** `Object.values(BackgroundStyle)`. */
  function BackgroundStyleChoices(): (choices: seq<BackgroundStyle>)
    ensures forall i, j :: 0 <= i < j < |choices| ==> choices[i] != choices[j]
  {
    [WhiteStudio, Marble, Dark, Lifestyle]
  }

  /** `Object.values(SceneType)`. */
  function SceneTypeChoices(): (choices: seq<SceneType>)
    ensures forall i, j :: 0 <= i < j < |choices| ==> choices[i] != choices[j]
  {
    [Studio, Gym, Urban, Nature, Home]
  }

  /** `Object.values(Gender)`. */
  function GenderChoices(): (choices: seq<Gender>)
    ensures forall i, j :: 0 <= i < j < |choices| ==> choices[i] != choices[j]
  {
    [Male, Female]
  }

  /** Every value of each enumeration is offered as a choice. */
  lemma EveryValueIsOffered()
    ensures forall a :: a in AspectRatioChoices()
    ensures forall b :: b in BackgroundStyleChoices()
    ensures forall s :: s in SceneTypeChoices()
    ensures forall g :: g in GenderChoices()
  {
    forall a: AspectRatio ensures a in AspectRatioChoices() {
      match a
      case OneOne => assert AspectRatioChoices()[0] == a;
      case SixteenNine => assert AspectRatioChoices()[1] == a;
      case FourThree => assert AspectRatioChoices()[2] == a;
    }
    forall b: BackgroundStyle ensures b in BackgroundStyleChoices() {
      match b
      case WhiteStudio => assert BackgroundStyleChoices()[0] == b;
      case Marble => assert BackgroundStyleChoices()[1] == b;
      case Dark => assert BackgroundStyleChoices()[2] == b;
      case Lifestyle => assert BackgroundStyleChoices()[3] == b;
    }
    forall s: SceneType ensures s in SceneTypeChoices() {
      match s
      case Studio => assert SceneTypeChoices()[0] == s;
      case Gym => assert SceneTypeChoices()[1] == s;
      case Urban => assert SceneTypeChoices()[2] == s;
      case Nature => assert SceneTypeChoices()[3] == s;
      case Home => assert SceneTypeChoices()[4] == s;
    }
    forall g: Gender ensures g in GenderChoices() {
      match g
      case Male => assert GenderChoices()[0] == g;
      case Female => assert GenderChoices()[1] == g;
    }
  }

  /** The per-setting selectors of the "Configure Scene" section. */
  datatype Selector = RatioSelector | BackgroundSelector | SceneSelector | GenderSelector

  /** The ratio selector is always there; the style selector in product-only
      mode; the scene and gender selectors otherwise. */
  function VisibleSelectors(mode: AppMode): (shown: set<Selector>)
    ensures RatioSelector in shown
    ensures (BackgroundSelector in shown) != (SceneSelector in shown)
    ensures SceneSelector in shown <==> GenderSelector in shown
  {
    if mode == ProductOnly then {RatioSelector, BackgroundSelector}
    else {RatioSelector, SceneSelector, GenderSelector}
  }

  /** The panel shows a selector for a prompt setting exactly when the prompt
      of the current mode depends on that setting. */
  lemma VisibleSelectorsAreWhatThePromptReads(settings: StudioSettings)
    ensures BackgroundSelector in VisibleSelectors(settings.mode)
      <==> exists b :: GeminiService.BuildPrompt(settings.(backgroundStyle := b)) != GeminiService.BuildPrompt(settings)
    ensures SceneSelector in VisibleSelectors(settings.mode)
      <==> exists s :: GeminiService.BuildPrompt(settings.(sceneType := s)) != GeminiService.BuildPrompt(settings)
    ensures GenderSelector in VisibleSelectors(settings.mode)
      <==> exists g :: GeminiService.BuildPrompt(settings.(gender := g)) != GeminiService.BuildPrompt(settings)
  {
    StyleSelectorMatchesPrompt(settings);
    SceneSelectorMatchesPrompt(settings);
    GenderSelectorMatchesPrompt(settings);
  }

  lemma StyleSelectorMatchesPrompt(settings: StudioSettings)
    ensures settings.mode == ProductOnly
      <==> exists b :: GeminiService.BuildPrompt(settings.(backgroundStyle := b)) != GeminiService.BuildPrompt(settings)
  {
    if settings.mode == ProductOnly {
      var b := if settings.backgroundStyle == WhiteStudio then Marble else WhiteStudio;
      if GeminiService.BuildPrompt(settings.(backgroundStyle := b)) == GeminiService.BuildPrompt(settings) {
        GeminiService.PromptIdentifiesChoices(settings.(backgroundStyle := b), settings);
      }
    } else {
      GeminiService.AvatarPrompt(settings);
    }
  }

  lemma SceneSelectorMatchesPrompt(settings: StudioSettings)
    ensures settings.mode != ProductOnly
      <==> exists s :: GeminiService.BuildPrompt(settings.(sceneType := s)) != GeminiService.BuildPrompt(settings)
  {
    if settings.mode != ProductOnly {
      var s := if settings.sceneType == Studio then Gym else Studio;
      if GeminiService.BuildPrompt(settings.(sceneType := s)) == GeminiService.BuildPrompt(settings) {
        GeminiService.PromptIdentifiesChoices(settings.(sceneType := s), settings);
      }
    } else {
      GeminiService.ProductOnlyPrompt(settings);
      assert forall s :: settings.(sceneType := s) == settings.(sceneType := s, gender := settings.gender);
    }
  }

  lemma GenderSelectorMatchesPrompt(settings: StudioSettings)
    ensures settings.mode != ProductOnly
      <==> exists g :: GeminiService.BuildPrompt(settings.(gender := g)) != GeminiService.BuildPrompt(settings)
  {
    if settings.mode != ProductOnly {
      var g := if settings.gender == Male then Female else Male;
      if GeminiService.BuildPrompt(settings.(gender := g)) == GeminiService.BuildPrompt(settings) {
        GeminiService.PromptIdentifiesChoices(settings.(gender := g), settings);
      }
    } else {
      GeminiService.ProductOnlyPrompt(settings);
      assert forall g :: settings.(gender := g) == settings.(sceneType := settings.sceneType, gender := g);
    }
  }

  /** The generate button is disabled while generating or without a source. */
  predicate GenerateDisabled(isGenerating: bool, hasSource: bool): (disabled: bool)
    ensures isGenerating ==> disabled
    ensures !disabled ==> hasSource
    ensures !isGenerating && hasSource ==> !disabled
  {
    isGenerating || !hasSource
  }

  /** `e.target.files?.[0] && onUpload(...)`: the file to upload, if one was chosen. */
  function ChosenFile<F>(files: Option<seq<F>>): (file: Option<F>)
    ensures file.Some? <==> files.Some? && |files.value| > 0
    ensures file.Some? ==> file.value == files.value[0]
  {
    match files
    case None => None
    case Some(fs) => if |fs| == 0 then None else Some(fs[0])
  }
}
