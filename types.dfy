/** The settings vocabulary: five closed enumerations, each case carrying the
    string value the application stores and shows, and the settings record. */
module Types {

  datatype AppMode = ProductOnly | ProductAvatar

  datatype BackgroundStyle = WhiteStudio | Marble | Dark | Lifestyle

  datatype SceneType = Studio | Gym | Urban | Nature | Home

  datatype AspectRatio = OneOne | SixteenNine | FourThree

  datatype Gender = Male | Female

  /** The user's creative choices. Exactly these five fields, each typed by its enumeration. */
  datatype StudioSettings = StudioSettings(
    mode: AppMode,
    backgroundStyle: BackgroundStyle,
    sceneType: SceneType,
    aspectRatio: AspectRatio,
    gender: Gender)

  function ModeValue(m: AppMode): (v: string)
    ensures v == "PRODUCT_ONLY" <==> m == ProductOnly
  {
    match m
    case ProductOnly => "PRODUCT_ONLY"
    case ProductAvatar => "PRODUCT_AVATAR"
  }

  function BackgroundStyleValue(b: BackgroundStyle): (v: string)
    ensures v != ""
  {
    match b
    case WhiteStudio => "White Studio"
    case Marble => "Marble"
    case Dark => "Dark"
    case Lifestyle => "Lifestyle"
  }

  function SceneTypeValue(s: SceneType): (v: string)
    ensures v != ""
  {
    match s
    case Studio => "Studio"
    case Gym => "Gym"
    case Urban => "Urban City"
    case Nature => "Outdoor Nature"
    case Home => "Home Lifestyle"
  }

  function AspectRatioValue(a: AspectRatio): (v: string)
    ensures ':' in v
  {
    match a
    case OneOne => "1:1"
    case SixteenNine => "16:9"
    case FourThree => "4:3"
  }

  function GenderValue(g: Gender): (v: string)
    ensures |v| > 0 && 'A' <= v[0] <= 'Z'
  {
    match g
    case Male => "Male"
    case Female => "Female"
  }

  /** The mode values are exactly "PRODUCT_ONLY" and "PRODUCT_AVATAR", and
      they differ. */
  lemma ModeValues(v: string)
    ensures (exists m :: ModeValue(m) == v) <==> v == "PRODUCT_ONLY" || v == "PRODUCT_AVATAR"
    ensures ModeValue(ProductOnly) != ModeValue(ProductAvatar)
  {
    if v == "PRODUCT_ONLY" {
      assert ModeValue(ProductOnly) == v;
    } else if v == "PRODUCT_AVATAR" {
      assert ModeValue(ProductAvatar) == v;
    }
  }

  /** The aspect-ratio values are exactly "1:1", "16:9" and "4:3". */
  lemma AspectRatioValuesExactly(v: string)
    ensures (exists a :: AspectRatioValue(a) == v) <==> v == "1:1" || v == "16:9" || v == "4:3"
  {
    if v == "1:1" {
      assert AspectRatioValue(OneOne) == v;
    } else if v == "16:9" {
      assert AspectRatioValue(SixteenNine) == v;
    } else if v == "4:3" {
      assert AspectRatioValue(FourThree) == v;
    }
  }

  /** Distinct cases have distinct values, so a value names its case. */
  lemma BackgroundStyleValueInjective(a: BackgroundStyle, b: BackgroundStyle)
    ensures BackgroundStyleValue(a) == BackgroundStyleValue(b) ==> a == b
  {
  }

  lemma SceneTypeValueInjective(a: SceneType, b: SceneType)
    ensures SceneTypeValue(a) == SceneTypeValue(b) ==> a == b
  {
  }

  lemma AspectRatioValueInjective(a: AspectRatio, b: AspectRatio)
    ensures AspectRatioValue(a) == AspectRatioValue(b) ==> a == b
  {
  }

  lemma GenderValueInjective(a: Gender, b: Gender)
    ensures GenderValue(a) == GenderValue(b) ==> a == b
  {
  }
}
