/** The news-source catalogue entry and its six closed classification
    vocabularies. A member's stored value equals its name. */
module Sources {
  import opened Values

  datatype OriginalContent = OcYes | OcNo | OcMix
  datatype ReleaseFrequency = Daily | Weekly | Monthly | FrequencyUnsure
  datatype CommercialPublisher = CpYes | CpNo | CpUnsure
  datatype IndividualOrOrganisation = Individual | Organization | IoUnsure
  datatype ContentType = Entertainment | Journalism | Service | CtMix | Other
  datatype ContentQuality = Low | Medium | High

  /** Member names, which are also the stored values. */
  function OriginalContentName(m: OriginalContent): string
  {
    match m
    case OcYes => "YES"
    case OcNo => "NO"
    case OcMix => "MIX"
  }

  function ReleaseFrequencyName(m: ReleaseFrequency): string
  {
    match m
    case Daily => "DAILY"
    case Weekly => "WEEKLY"
    case Monthly => "MONTHLY"
    case FrequencyUnsure => "UNSURE"
  }

  function CommercialPublisherName(m: CommercialPublisher): string
  {
    match m
    case CpYes => "YES"
    case CpNo => "NO"
    case CpUnsure => "UNSURE"
  }

  function IndividualOrOrganisationName(m: IndividualOrOrganisation): string
  {
    match m
    case Individual => "INDIVIDUAL"
    case Organization => "ORGANIZATION"
    case IoUnsure => "UNSURE"
  }

  function ContentTypeName(m: ContentType): string
  {
    match m
    case Entertainment => "ENTERTAINMENT"
    case Journalism => "JOURNALISM"
    case Service => "SERVICE"
    case CtMix => "MIX"
    case Other => "OTHER"
  }

  function ContentQualityName(m: ContentQuality): string
  {
    match m
    case Low => "LOW"
    case Medium => "MEDIUM"
    case High => "HIGH"
  }

  /** `getattr(OriginalContent, name, OriginalContent.MIX)` on a member name:
      the member so named, the column's default for any other text. */
  function ResolveOriginalContent(name: string): (m: OriginalContent)
    ensures OriginalContentName(m) == name || (m == OcMix && forall x :: OriginalContentName(x) != name)
  {
    if name == "YES" then OcYes else if name == "NO" then OcNo else OcMix
  }

  function ResolveReleaseFrequency(name: string): (m: ReleaseFrequency)
    ensures ReleaseFrequencyName(m) == name || (m == FrequencyUnsure && forall x :: ReleaseFrequencyName(x) != name)
  {
    if name == "DAILY" then Daily
    else if name == "WEEKLY" then Weekly
    else if name == "MONTHLY" then Monthly
    else FrequencyUnsure
  }

  function ResolveCommercialPublisher(name: string): (m: CommercialPublisher)
    ensures CommercialPublisherName(m) == name || (m == CpYes && forall x :: CommercialPublisherName(x) != name)
  {
    if name == "NO" then CpNo else if name == "UNSURE" then CpUnsure else CpYes
  }

  function ResolveIndividualOrOrganisation(name: string): (m: IndividualOrOrganisation)
    ensures IndividualOrOrganisationName(m) == name
            || (m == IoUnsure && forall x :: IndividualOrOrganisationName(x) != name)
  {
    if name == "INDIVIDUAL" then Individual
    else if name == "ORGANIZATION" then Organization
    else IoUnsure
  }

  function ResolveContentType(name: string): (m: ContentType)
    ensures ContentTypeName(m) == name || (m == CtMix && forall x :: ContentTypeName(x) != name)
  {
    if name == "ENTERTAINMENT" then Entertainment
    else if name == "JOURNALISM" then Journalism
    else if name == "SERVICE" then Service
    else if name == "OTHER" then Other
    else CtMix
  }

  function ResolveContentQuality(name: string): (m: ContentQuality)
    ensures ContentQualityName(m) == name || (m == Low && forall x :: ContentQualityName(x) != name)
  {
    if name == "MEDIUM" then Medium else if name == "HIGH" then High else Low
  }

  /** A news source: free-text descriptive columns and six classifications. */
  datatype Source = Source(
    name: string,
    website: string,
    country: string,
    province: string,
    region: string,
    municipality: string,
    medium: string,
    originalContent: OriginalContent,
    releaseFrequency: ReleaseFrequency,
    commercialPublisher: CommercialPublisher,
    publisher: string,
    individualOrOrganisation: IndividualOrOrganisation,
    contentType: ContentType,
    contentArea: string,
    contentQuality: ContentQuality)

  /** A stored source with its primary key. */
  datatype SourceRow = SourceRow(id: nat, source: Source)

  /** `Source.objects.get(id=id)`: the row with that key, None when there is none. */
  function FindSource(rows: seq<SourceRow>, id: int): (r: Option<Source>)
    ensures r.None? <==> forall i :: 0 <= i < |rows| ==> rows[i].id != id
    ensures r.Some? ==> exists i :: 0 <= i < |rows| && rows[i].id == id && rows[i].source == r.value
  {
    if rows == [] then None
    else if rows[0].id == id then Some(rows[0].source)
    else
      var r := FindSource(rows[1..], id);
      assert forall i :: 1 <= i < |rows| ==> rows[i] == rows[1..][i - 1];
      r
  }
}
