/**
 * The records and enumerations every component shares (types.ts). String
 * unions become datatypes; `Package` and `ImageQuality` carry the code they
 * are stored under, `BusinessType` and `SceneStyle` the name they are shown
 * and sent as.
 */
module Types {
  import opened Wrappers

  /** Milliseconds since the Unix epoch, as `Date.now()` returns them. */
  type Timestamp = int

  /** `PackageType`: the free trial and the four paid packages. */
  datatype Package = Free | OneMonth | ThreeMonths | SixMonths | TwelveMonths {
    /** The code the package is stored under. */
    function Code(): string {
      match this
      case Free => "free"
      case OneMonth => "1m"
      case ThreeMonths => "3m"
      case SixMonths => "6m"
      case TwelveMonths => "12m"
    }
  }

  datatype Role = Business | Admin

  /** The nine business niches offered on the dashboard. */
  datatype BusinessType =
    | Electronics | Footwear | Fashion | Lingerie | Handbags
    | Jewelry | Accessories | HomeDecor | Cosmetics
  {
    function Name(): string {
      match this
      case Electronics => "Electronics"
      case Footwear => "Footwear"
      case Fashion => "Fashion"
      case Lingerie => "Lingerie"
      case Handbags => "Handbags"
      case Jewelry => "Jewelry"
      case Accessories => "Accessories"
      case HomeDecor => "HomeDecor"
      case Cosmetics => "Cosmetics"
    }
  }

  /** Recognises one of the nine niche names. */
  function BusinessTypeOfName(name: string): (r: Option<BusinessType>)
    ensures r.Some? ==> r.value.Name() == name
    ensures r.None? ==> forall b: BusinessType :: b.Name() != name
  {
    if name == "Electronics" then Some(Electronics)
    else if name == "Footwear" then Some(Footwear)
    else if name == "Fashion" then Some(Fashion)
    else if name == "Lingerie" then Some(Lingerie)
    else if name == "Handbags" then Some(Handbags)
    else if name == "Jewelry" then Some(Jewelry)
    else if name == "Accessories" then Some(Accessories)
    else if name == "HomeDecor" then Some(HomeDecor)
    else if name == "Cosmetics" then Some(Cosmetics)
    else None
  }

  lemma BusinessNameInjective(b1: BusinessType, b2: BusinessType)
    ensures b1.Name() == b2.Name() ==> b1 == b2
  {
  }

  /** The six scene styles. */
  datatype SceneStyle = Studio | Lifestyle | Nature | Luxury | Minimalist | Urban {
    function Name(): string {
      match this
      case Studio => "Studio"
      case Lifestyle => "Lifestyle"
      case Nature => "Nature"
      case Luxury => "Luxury"
      case Minimalist => "Minimalist"
      case Urban => "Urban"
    }
  }

  /** Recognises one of the six style names. */
  function SceneStyleOfName(name: string): (r: Option<SceneStyle>)
    ensures r.Some? ==> r.value.Name() == name
    ensures r.None? ==> forall s: SceneStyle :: s.Name() != name
  {
    if name == "Studio" then Some(Studio)
    else if name == "Lifestyle" then Some(Lifestyle)
    else if name == "Nature" then Some(Nature)
    else if name == "Luxury" then Some(Luxury)
    else if name == "Minimalist" then Some(Minimalist)
    else if name == "Urban" then Some(Urban)
    else None
  }

  lemma StyleNameInjective(s1: SceneStyle, s2: SceneStyle)
    ensures s1.Name() == s2.Name() ==> s1 == s2
  {
  }

  /** `ImageQuality`: the output resolution tier. */
  datatype ImageQuality = Q1K | Q2K | Q4K {
    function Code(): string {
      match this
      case Q1K => "1K"
      case Q2K => "2K"
      case Q4K => "4K"
    }
  }

  /** One business account (or the built-in administrator). */
  datatype User = User(
    id: string,
    email: string,
    businessName: string,
    role: Role,
    credits: int,
    package: Package,
    expiryDate: Option<Timestamp>,
    paymentPending: bool,
    requestedPackage: Option<Package>)

  /** One rendered image in the dashboard's session history. */
  datatype GeneratedProduct = GeneratedProduct(
    id: string,
    data: string,
    originalImage: string,
    prompt: string,
    timestamp: Timestamp,
    businessType: BusinessType,
    style: SceneStyle,
    quality: ImageQuality)

  /** `AppView`: 'landing' | 'auth' | 'dashboard' | 'admin'. */
  datatype View = Landing | SignIn | DashboardView | AdminView
}
