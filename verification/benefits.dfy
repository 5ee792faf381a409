/**
 The ten statement credits the tracker knows about, and the fixed facts about
 each one: which card widget writes it, the largest value that widget can
 store, and how often the credit resets.
 */
module Benefits {

  /** One constructor per key of the session ledger, in the order the ledger is initialised. */
  datatype BenefitId =
    | AmexDining        // $10 per month
    | AmexUber          // $10 per month
    | AmexDunkin        // $7 per month
    | AmexResy          // $50 per half-year
    | AmexHotel         // $100 per stay; never written, never summed
    | CsrTravel         // $300 per year
    | CsrDiningTables   // $150 per half-year
    | CsrDoordashNc     // $20 per month
    | CsrEditHotel      // $250 per half-year
    | CitiHotel         // $100 per year

  /** The nine benefits that some widget writes and that the totals add up. */
  type Tracked = id: BenefitId | id != AmexHotel witness AmexDining

  /** Every key of the ledger. */
  const AllBenefits: set<BenefitId> :=
    {AmexDining, AmexUber, AmexDunkin, AmexResy, AmexHotel,
     CsrTravel, CsrDiningTables, CsrDoordashNc, CsrEditHotel, CitiHotel}

  /** The tracked benefits, in the order the projected total adds them up. */
  const TrackedInSumOrder: seq<Tracked> :=
    [AmexDining, AmexUber, AmexDunkin, AmexResy, CsrTravel,
     CsrEditHotel, CsrDiningTables, CsrDoordashNc, CitiHotel]

  /** How a widget stores its value: a checkbox stores 0 or a fixed unit, a slider or number input any value up to its maximum. */
  datatype Control = Checkbox(unit: nat) | Bounded(max: nat)

  datatype Period = Monthly | SemiAnnual | Annual

  /** The widget bound to each tracked benefit and its constant. */
  function ControlOf(t: Tracked): Control
  {
    match t
    case AmexDining => Checkbox(10)
    case AmexUber => Checkbox(10)
    case AmexDunkin => Checkbox(7)
    case CsrDoordashNc => Checkbox(20)
    case CitiHotel => Checkbox(100)
    case AmexResy => Bounded(50)
    case CsrTravel => Bounded(300)
    case CsrEditHotel => Bounded(250)
    case CsrDiningTables => Bounded(150)
  }

  /** The largest amount the benefit's widget can store for one period. */
  function Cap(t: Tracked): nat
  {
    match ControlOf(t)
    case Checkbox(u) => u
    case Bounded(m) => m
  }

  function PeriodOf(t: Tracked): Period
  {
    match t
    case AmexDining => Monthly
    case AmexUber => Monthly
    case AmexDunkin => Monthly
    case CsrDoordashNc => Monthly
    case AmexResy => SemiAnnual
    case CsrEditHotel => SemiAnnual
    case CsrDiningTables => SemiAnnual
    case CsrTravel => Annual
    case CitiHotel => Annual
  }

  /** How many times a period recurs in one year. */
  function PerYear(p: Period): (n: nat)
    ensures 1 <= n <= 12
  {
    match p
    case Monthly => 12
    case SemiAnnual => 2
    case Annual => 1
  }

  function Weight(t: Tracked): (w: nat)
    ensures w >= 1
  {
    PerYear(PeriodOf(t))
  }

  /** The ledger has ten keys, and every benefit id is one of them. */
  lemma EveryIdIsAKey()
    ensures forall id: BenefitId :: id in AllBenefits
  {
    forall id: BenefitId ensures id in AllBenefits {
      match id
      case AmexDining =>
      case AmexUber =>
      case AmexDunkin =>
      case AmexResy =>
      case AmexHotel =>
      case CsrTravel =>
      case CsrDiningTables =>
      case CsrDoordashNc =>
      case CsrEditHotel =>
      case CitiHotel =>
    }
  }

  /** The ledger has exactly ten keys. */
  lemma AllBenefitsAreTen()
    ensures |AllBenefits| == 10
  {
  }

  /** The summed benefits are exactly the tracked ones, each listed once. */
  lemma TrackedInSumOrderListsEachOnce()
    ensures forall t: Tracked :: t in TrackedInSumOrder
    ensures forall i, j :: 0 <= i < j < |TrackedInSumOrder| ==> TrackedInSumOrder[i] != TrackedInSumOrder[j]
  {
  }
}
