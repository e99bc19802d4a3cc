/**
 * The enumerations and ranges declared by the two document schemas: the listing
 * type and source platform of an accommodation, and the demand level, demand
 * trend, alert type, alert severity and recommendation priority of a market
 * analysis. Each enumeration is a datatype; its `Name` is the string the schema
 * lists and its `Parse` is the schema's enum validation of a stored string.
 */
module Schema {
  import opened Wrappers

  datatype AccommodationType = Hotel | Pousada | Resort | Hostel | Chale | Apartamento | Outro

  function TypeName(t: AccommodationType): string
  {
    match t
    case Hotel => "hotel"
    case Pousada => "pousada"
    case Resort => "resort"
    case Hostel => "hostel"
    case Chale => "chalé"
    case Apartamento => "apartamento"
    case Outro => "outro"
  }

  /** Enum validation of the `type` field: exactly the seven listed strings are accepted. */
  function ParseType(s: string): (r: Option<AccommodationType>)
    ensures r.Some? ==> TypeName(r.value) == s
    ensures r.None? <==> s !in {"hotel", "pousada", "resort", "hostel", "chalé", "apartamento", "outro"}
  {
    if s == "hotel" then Some(Hotel)
    else if s == "pousada" then Some(Pousada)
    else if s == "resort" then Some(Resort)
    else if s == "hostel" then Some(Hostel)
    else if s == "chalé" then Some(Chale)
    else if s == "apartamento" then Some(Apartamento)
    else if s == "outro" then Some(Outro)
    else None
  }

  lemma {:induction false} ParseTypeName(t: AccommodationType)
    ensures ParseType(TypeName(t)) == Some(t)
  {
  }

  datatype Platform = Booking | Expedia | Airbnb | Manual | OtherPlatform

  function PlatformName(p: Platform): string
  {
    match p
    case Booking => "booking"
    case Expedia => "expedia"
    case Airbnb => "airbnb"
    case Manual => "manual"
    case OtherPlatform => "other"
  }

  datatype DemandLevel = Baixa | Media | Alta | MuitoAlta

  function LevelName(l: DemandLevel): string
  {
    match l
    case Baixa => "baixa"
    case Media => "média"
    case Alta => "alta"
    case MuitoAlta => "muito alta"
  }

  /** Enum validation of `demandAnalysis.level`. */
  function ParseLevel(s: string): (r: Option<DemandLevel>)
    ensures r.Some? ==> LevelName(r.value) == s
    ensures r.None? <==> s !in {"baixa", "média", "alta", "muito alta"}
  {
    if s == "baixa" then Some(Baixa)
    else if s == "média" then Some(Media)
    else if s == "alta" then Some(Alta)
    else if s == "muito alta" then Some(MuitoAlta)
    else None
  }

  lemma {:induction false} ParseLevelName(l: DemandLevel)
    ensures ParseLevel(LevelName(l)) == Some(l)
  {
  }

  /** The `min: 0, max: 100` range of `demandAnalysis.score`. */
  predicate ValidDemandScore(score: int)
  {
    0 <= score <= 100
  }

  datatype DemandTrend = Crescente | Estavel | Decrescente

  function TrendName(t: DemandTrend): string
  {
    match t
    case Crescente => "crescente"
    case Estavel => "estável"
    case Decrescente => "decrescente"
  }

  /** Enum validation of `demandAnalysis.trend`. */
  function ParseTrend(s: string): (r: Option<DemandTrend>)
    ensures r.Some? ==> TrendName(r.value) == s
    ensures r.None? <==> s !in {"crescente", "estável", "decrescente"}
  {
    if s == "crescente" then Some(Crescente)
    else if s == "estável" then Some(Estavel)
    else if s == "decrescente" then Some(Decrescente)
    else None
  }

  lemma {:induction false} ParseTrendName(t: DemandTrend)
    ensures ParseTrend(TrendName(t)) == Some(t)
  {
  }

  datatype AlertType = PriceSurge | PriceDrop | HighDemand | LowAvailability

  function AlertTypeName(a: AlertType): string
  {
    match a
    case PriceSurge => "price_surge"
    case PriceDrop => "price_drop"
    case HighDemand => "high_demand"
    case LowAvailability => "low_availability"
  }

  /** Enum validation of `alerts[].type`. */
  function ParseAlertType(s: string): (r: Option<AlertType>)
    ensures r.Some? ==> AlertTypeName(r.value) == s
    ensures r.None? <==> s !in {"price_surge", "price_drop", "high_demand", "low_availability"}
  {
    if s == "price_surge" then Some(PriceSurge)
    else if s == "price_drop" then Some(PriceDrop)
    else if s == "high_demand" then Some(HighDemand)
    else if s == "low_availability" then Some(LowAvailability)
    else None
  }

  lemma {:induction false} ParseAlertTypeName(a: AlertType)
    ensures ParseAlertType(AlertTypeName(a)) == Some(a)
  {
  }

  /** The `['low', 'medium', 'high']` enum shared by alert severity and recommendation priority. */
  datatype Tier = Low | Medium | High

  function TierName(t: Tier): string
  {
    match t
    case Low => "low"
    case Medium => "medium"
    case High => "high"
  }

  /** Enum validation of `alerts[].severity` and `recommendations[].priority`. */
  function ParseTier(s: string): (r: Option<Tier>)
    ensures r.Some? ==> TierName(r.value) == s
    ensures r.None? <==> s !in {"low", "medium", "high"}
  {
    if s == "low" then Some(Low)
    else if s == "medium" then Some(Medium)
    else if s == "high" then Some(High)
    else None
  }

  lemma {:induction false} ParseTierName(t: Tier)
    ensures ParseTier(TierName(t)) == Some(t)
  {
  }
}
