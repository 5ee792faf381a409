/**
 The session ledger: a dictionary from benefit id to the amount marked as used,
 created once per browser session and overwritten key by key on every run of
 the page script, from the values the sidebar checkboxes, sliders and number
 input hand back.
 */
module Ledger {
  import opened Benefits

  type Data = map<BenefitId, int>

  /**
   What the widgets return on one run: the four monthly checkboxes, the three
   sliders and the number input, and the Citi checkbox.
   */
  datatype Inputs = Inputs(
    dining: bool, uber: bool, dunkin: bool, doordash: bool,
    resy: int, travel: int, edit: int, tables: int,
    citi: bool)

  /** The slider and number-input bounds: each widget returns a value in [0, its maximum]. */
  predicate InRange(inp: Inputs)
  {
    && 0 <= inp.resy <= Cap(AmexResy)
    && 0 <= inp.travel <= Cap(CsrTravel)
    && 0 <= inp.edit <= Cap(CsrEditHotel)
    && 0 <= inp.tables <= Cap(CsrDiningTables)
  }

  /** The tick a checkbox benefit's widget returned on this run (false for the other benefits). */
  function TickOf(inp: Inputs, t: Tracked): bool
  {
    match t
    case AmexDining => inp.dining
    case AmexUber => inp.uber
    case AmexDunkin => inp.dunkin
    case CsrDoordashNc => inp.doordash
    case CitiHotel => inp.citi
    case _ => false
  }

  /** The number a slider or number-input benefit's widget returned on this run (0 for the other benefits). */
  function AmountOf(inp: Inputs, t: Tracked): int
  {
    match t
    case AmexResy => inp.resy
    case CsrTravel => inp.travel
    case CsrEditHotel => inp.edit
    case CsrDiningTables => inp.tables
    case _ => 0
  }

  /** What a run stores for a tracked benefit: a checkbox its unit or 0, any other widget the number it returned. */
  function Target(inp: Inputs, t: Tracked): int
  {
    match ControlOf(t)
    case Checkbox(u) => if TickOf(inp, t) then u else 0
    case Bounded(_) => AmountOf(inp, t)
  }

  /** The ledger holds a value for every benefit id. */
  predicate Complete(d: Data)
  {
    forall id: BenefitId :: id in d
  }

  /** A value the widget bound to a benefit can have stored. */
  predicate Storable(c: Control, v: int)
  {
    match c
    case Checkbox(u) => v == 0 || v == u
    case Bounded(m) => 0 <= v <= m
  }

  /**
   The invariant of every ledger a session can reach: all ten keys, the hotel
   collection credit still 0, each checkbox benefit 0 or its unit and each
   other benefit within its widget's bounds.
   */
  predicate WellFormed(d: Data)
  {
    && Complete(d)
    && d[AmexHotel] == 0
    && forall t: Tracked :: Storable(ControlOf(t), d[t])
  }

  /** The dictionary a new session starts with: every benefit at 0. */
  function Initial(): (d: Data)
    ensures WellFormed(d)
    ensures d.Keys == AllBenefits
    ensures forall id: BenefitId :: d[id] == 0
  {
    var d := map[AmexDining := 0, AmexUber := 0, AmexDunkin := 0, AmexResy := 0, AmexHotel := 0,
                 CsrTravel := 0, CsrDiningTables := 0, CsrDoordashNc := 0, CsrEditHotel := 0, CitiHotel := 0];
    assert d.Keys == AllBenefits;
    EveryIdIsAKey();
    d
  }

  /**
   The state a checkbox starts in, read back from its benefit's amount: a
   monthly checkbox is ticked when the amount is positive, the Citi checkbox
   when it is exactly 100.  For an amount its checkbox can have stored (0 or
   its unit) the checkbox starts ticked exactly when the amount is the unit.
   */
  function StartsTicked(t: Tracked, v: int): (ticked: bool)
    requires ControlOf(t).Checkbox?
    ensures Storable(ControlOf(t), v) ==> (ticked <==> v == ControlOf(t).unit)
  {
    if t == CitiHotel then v == 100 else v > 0
  }

  /**
   The values the widgets start from on a run, read back from the ledger: the
   checkboxes from their benefit's amount, the sliders and the number input
   from the amount itself.  On a well-formed ledger they are legal widget
   values, and writing them back reproduces every tracked amount.
   */
  function Defaults(d: Data): (inp: Inputs)
    requires WellFormed(d)
    ensures InRange(inp)
    ensures forall t: Tracked :: Target(inp, t) == d[t]
  {
    assert forall t: Tracked :: Storable(ControlOf(t), d[t]);
    Inputs(
      StartsTicked(AmexDining, d[AmexDining]), StartsTicked(AmexUber, d[AmexUber]),
      StartsTicked(AmexDunkin, d[AmexDunkin]), StartsTicked(CsrDoordashNc, d[CsrDoordashNc]),
      d[AmexResy], d[CsrTravel], d[CsrEditHotel], d[CsrDiningTables],
      StartsTicked(CitiHotel, d[CitiHotel]))
  }

  /**
   The ledger after the sidebar checklist writes, one key at a time: the four
   monthly benefits hold their checkbox's target and every other key is as before.
   */
  function AfterChecklist(d: Data, inp: Inputs): (r: Data)
    ensures forall t: Tracked :: t in {AmexDining, AmexUber, AmexDunkin, CsrDoordashNc} ==> t in r && r[t] == Target(inp, t)
    ensures forall id :: id in d && id !in {AmexDining, AmexUber, AmexDunkin, CsrDoordashNc} ==> id in r && r[id] == d[id]
  {
    d[AmexDining := if inp.dining then 10 else 0]
     [AmexUber := if inp.uber then 10 else 0]
     [AmexDunkin := if inp.dunkin then 7 else 0]
     [CsrDoordashNc := if inp.doordash then 20 else 0]
  }

  /**
   The ledger after a whole run: the checklist writes, then the Resy slider,
   the travel number input, the Edit and Exclusive Tables sliders, and the
   Citi checkbox.  Every tracked benefit ends at what its widget asked for,
   whatever it held before; the hotel collection credit is never written.
   */
  function Written(d: Data, inp: Inputs): (r: Data)
    requires Complete(d)
    ensures r.Keys == d.Keys
    ensures forall t: Tracked :: r[t] == Target(inp, t)
    ensures r[AmexHotel] == d[AmexHotel]
  {
    AfterChecklist(d, inp)
      [AmexResy := inp.resy]
      [CsrTravel := inp.travel]
      [CsrEditHotel := inp.edit]
      [CsrDiningTables := inp.tables]
      [CitiHotel := if inp.citi then 100 else 0]
  }

  /** The checklist writes keep a well-formed ledger well formed. */
  lemma ChecklistKeepsWellFormed(d: Data, inp: Inputs)
    requires WellFormed(d)
    ensures WellFormed(AfterChecklist(d, inp))
  {
  }

  /** A run with legal widget values keeps the ledger well formed. */
  lemma RunKeepsWellFormed(d: Data, inp: Inputs)
    requires WellFormed(d) && InRange(inp)
    ensures WellFormed(Written(d, inp))
  {
  }

  /** A rerun in which the user changes no widget leaves the ledger as it was. */
  lemma NoChangeRunIsIdentity(d: Data)
    requires WellFormed(d)
    ensures Written(d, Defaults(d)) == d
  {
  }

  /** Writes overwrite rather than accumulate: after two runs only the second run's widget values matter. */
  lemma LastRunWins(d: Data, first: Inputs, second: Inputs)
    requires Complete(d)
    ensures Written(Written(d, first), second) == Written(d, second)
  {
  }

  /** Running twice with the same widget values gives the same ledger as running once. */
  lemma RunIsIdempotent(d: Data, inp: Inputs)
    requires Complete(d)
    ensures Written(Written(d, inp), inp) == Written(d, inp)
  {
    LastRunWins(d, inp, inp);
  }

  /**
   The widgets resume where they were: the start values read back on the next
   run are exactly the values the widgets returned on this one.
   */
  lemma WidgetsResumeWhereTheyWere(d: Data, inp: Inputs)
    requires WellFormed(d) && InRange(inp)
    ensures WellFormed(Written(d, inp)) && Defaults(Written(d, inp)) == inp
  {
    RunKeepsWellFormed(d, inp);
  }

  /**
   The browser session.  `data` stands for `st.session_state.data`; until the
   first run of the script creates it, `initialised` is false.
   */
  class Session {
    var initialised: bool
    var data: Data

    ghost predicate Valid()
      reads this
    {
      initialised ==> WellFormed(data)
    }

    /** The ledger a run of the script works on: the stored one, or a fresh all-zero one on the first run. */
    function Current(): (d: Data)
      reads this
      requires Valid()
      ensures WellFormed(d)
    {
      if initialised then data else Initial()
    }

    /** A new session, before the script has run. */
    constructor ()
      ensures Valid() && !initialised
    {
      initialised := false;
      data := map[];
    }

    /** Creates the all-zero ledger on the first run; later runs keep the stored one. */
    method EnsureData()
      requires Valid()
      modifies this
      ensures Valid() && initialised
      ensures data == old(Current())
      ensures old(initialised) ==> data == old(data)
    {
      if !initialised {
        data := Initial();
        initialised := true;
      }
    }

    /**
     One run of the page script: make sure the ledger exists, then write each
     widget's value into it in page order.  Afterwards every tracked benefit
     holds what its widget asked for, the hotel collection credit is still 0,
     and the ledger is still well formed.
     */
    method Rerun(inp: Inputs)
      requires Valid() && InRange(inp)
      modifies this
      ensures Valid() && initialised
      ensures data == Written(old(Current()), inp)
      ensures forall t: Tracked :: data[t] == Target(inp, t)
      ensures data[AmexHotel] == 0
    {
      ghost var before := Current();
      EnsureData();

      // sidebar checklist
      if inp.dining { data := data[AmexDining := 10]; } else { data := data[AmexDining := 0]; }
      if inp.uber { data := data[AmexUber := 10]; } else { data := data[AmexUber := 0]; }
      if inp.dunkin { data := data[AmexDunkin := 7]; } else { data := data[AmexDunkin := 0]; }
      if inp.doordash { data := data[CsrDoordashNc := 20]; } else { data := data[CsrDoordashNc := 0]; }
      assert data == AfterChecklist(before, inp);

      // Amex tab: Resy slider
      data := data[AmexResy := inp.resy];

      // Sapphire tab: travel number input, Edit and Exclusive Tables sliders
      data := data[CsrTravel := inp.travel];
      data := data[CsrEditHotel := inp.edit];
      data := data[CsrDiningTables := inp.tables];

      // Citi tab: hotel checkbox
      if inp.citi { data := data[CitiHotel := 100]; } else { data := data[CitiHotel := 0]; }
      assert data == Written(before, inp);

      RunKeepsWellFormed(before, inp);
    }
  }
}
