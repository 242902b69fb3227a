/**
 * The soil-analysis wizard of the client: a three-step form (soil type,
 * nutrient levels, results) whose submission asks the server for an
 * AI-written recommendation, plus the threshold labels it shows next to the
 * sliders.
 */
module SoilAnalysis {
  import opened Wrappers

  /** The values the form holds (`SoilAnalysisForm`). */
  datatype SoilForm = SoilForm(
    soilType: string, nitrogen: real, phosphorus: real, potassium: real, ph: real, organicMatter: real)

  /** The form's fields, in the order the schema declares them. */
  datatype Field = SoilType | Nitrogen | Phosphorus | Potassium | Ph | OrganicMatter

  /** The form's `defaultValues`, also what `form.reset()` restores. */
  const DefaultForm := SoilForm("", 50.0, 50.0, 50.0, 7.0, 3.0)

  /** The values offered by the soil-type select. */
  const SoilTypes: seq<string> := ["clay", "sandy", "loamy", "silty", "peaty", "chalky"]

  // ----- the zod schema `soilAnalysisSchema` -----

  /** Lower and upper bound of a numeric field in the schema. */
  function SchemaBounds(fld: Field): (b: (real, real))
    requires fld != SoilType
  {
    match fld
    case Ph => (0.0, 14.0)
    case _ => (0.0, 100.0)
  }

  function NumericValue(f: SoilForm, fld: Field): real
    requires fld != SoilType
  {
    match fld
    case Nitrogen => f.nitrogen
    case Phosphorus => f.phosphorus
    case Potassium => f.potassium
    case Ph => f.ph
    case OrganicMatter => f.organicMatter
  }

  /** Whether one field passes its schema rule. */
  predicate FieldOk(f: SoilForm, fld: Field)
  {
    if fld == SoilType then |f.soilType| >= 1
    else SchemaBounds(fld).0 <= NumericValue(f, fld) <= SchemaBounds(fld).1
  }

  /** The fields in declaration order. */
  const AllFields: seq<Field> := [SoilType, Nitrogen, Phosphorus, Potassium, Ph, OrganicMatter]

  lemma AllFieldsComplete()
    ensures forall fld: Field :: fld in AllFields
  {
    forall fld: Field ensures fld in AllFields {
      match fld
      case SoilType => assert AllFields[0] == fld;
      case Nitrogen => assert AllFields[1] == fld;
      case Phosphorus => assert AllFields[2] == fld;
      case Potassium => assert AllFields[3] == fld;
      case Ph => assert AllFields[4] == fld;
      case OrganicMatter => assert AllFields[5] == fld;
    }
  }

  predicate SchemaValid(f: SoilForm)
  {
    && FieldOk(f, SoilType) && FieldOk(f, Nitrogen) && FieldOk(f, Phosphorus)
    && FieldOk(f, Potassium) && FieldOk(f, Ph) && FieldOk(f, OrganicMatter)
  }

  function Errors(f: SoilForm, fields: seq<Field>): (errs: seq<Field>)
    ensures forall fld :: fld in errs <==> fld in fields && !FieldOk(f, fld)
  {
    if fields == [] then []
    else (if FieldOk(f, fields[0]) then [] else [fields[0]]) + Errors(f, fields[1..])
  }

  /**
   * `soilAnalysisSchema.parse`: the form itself when every rule passes,
   * otherwise the fields that fail, in declaration order.
   */
  function Validate(f: SoilForm): (r: Result<SoilForm, seq<Field>>)
    ensures r.Ok? <==> SchemaValid(f)
    ensures r.Ok? ==> r.value == f
    ensures r.Err? ==> r.errors != [] && forall fld :: fld in r.errors <==> !FieldOk(f, fld)
  {
    var errs := Errors(f, AllFields);
    AllFieldsComplete();
    if errs == [] then Ok(f)
    else
      assert errs[0] in errs;
      Err(errs)
  }

  /** A list of fields that all pass yields no errors. */
  lemma {:induction false} ErrorsNone(f: SoilForm, fields: seq<Field>)
    requires forall k :: 0 <= k < |fields| ==> FieldOk(f, fields[k])
    ensures Errors(f, fields) == []
  {
    if fields != [] {
      assert FieldOk(f, fields[0]);
      ErrorsNone(f, fields[1..]);
    }
  }

  /** The defaults fail the schema on the soil type alone. */
  lemma DefaultsNeedSoilType()
    ensures Validate(DefaultForm) == Err([SoilType])
  {
    var d := DefaultForm;
    var rest := AllFields[1..];
    assert rest == [Nitrogen, Phosphorus, Potassium, Ph, OrganicMatter];
    assert FieldOk(d, Nitrogen) && FieldOk(d, Phosphorus) && FieldOk(d, Potassium);
    assert FieldOk(d, Ph) && FieldOk(d, OrganicMatter);
    ErrorsNone(d, rest);
    assert !FieldOk(d, SoilType) && AllFields[0] == SoilType;
    assert Errors(d, AllFields) == [SoilType] + Errors(d, rest) == [SoilType];
  }

  /** Choosing any soil type makes the defaults valid. */
  lemma DefaultsWithSoilTypeValid(t: string)
    requires t != ""
    ensures Validate(DefaultForm.(soilType := t)).Ok?
  {
  }

  // ----- the slider ranges -----

  /** The range of the slider for a numeric field (step granularity is not modelled). */
  function SliderBounds(fld: Field): (b: (real, real))
    requires fld != SoilType
  {
    match fld
    case Ph => (0.0, 14.0)
    case OrganicMatter => (0.0, 20.0)
    case _ => (0.0, 100.0)
  }

  predicate InSlider(fld: Field, v: real)
    requires fld != SoilType
  {
    SliderBounds(fld).0 <= v <= SliderBounds(fld).1
  }

  predicate SlidersInRange(f: SoilForm)
  {
    && InSlider(Nitrogen, f.nitrogen) && InSlider(Phosphorus, f.phosphorus)
    && InSlider(Potassium, f.potassium) && InSlider(Ph, f.ph) && InSlider(OrganicMatter, f.organicMatter)
  }

  /** Every slider range lies inside the schema's range for that field. */
  lemma SlidersWithinSchema(f: SoilForm)
    requires SlidersInRange(f) && f.soilType != ""
    ensures Validate(f).Ok?
  {
  }

  /** The form with one numeric field replaced. */
  function WithValue(f: SoilForm, fld: Field, v: real): (g: SoilForm)
    requires fld != SoilType
    ensures NumericValue(g, fld) == v && g.soilType == f.soilType
    ensures forall other: Field :: other != SoilType && other != fld ==> NumericValue(g, other) == NumericValue(f, other)
  {
    match fld
    case Nitrogen => f.(nitrogen := v)
    case Phosphorus => f.(phosphorus := v)
    case Potassium => f.(potassium := v)
    case Ph => f.(ph := v)
    case OrganicMatter => f.(organicMatter := v)
  }

  // ----- the labels next to the sliders -----

  /** The text colour classes the labels use. */
  datatype Tone = Red | Amber | Green

  /** The `{ color, status }` object both label functions return. */
  datatype Status = Status(color: Tone, status: string)

  /** `getNutrientStatus`: the status is the translation key "low", "medium" or "high". */
  function NutrientStatus(v: real): (s: Status)
    ensures s.status == "low" <==> v < 30.0
    ensures s.status == "medium" <==> 30.0 <= v < 70.0
    ensures s.status == "high" <==> 70.0 <= v
    ensures s.color == (if v < 30.0 then Red else if v < 70.0 then Amber else Green)
  {
    if v < 30.0 then Status(Red, "low")
    else if v < 70.0 then Status(Amber, "medium")
    else Status(Green, "high")
  }

  /** The three nutrient labels cover every value, and raising a value never lowers its label. */
  lemma NutrientStatusMonotone(v: real, w: real)
    requires v <= w
    ensures NutrientStatus(v).status in {"low", "medium", "high"}
    ensures NutrientStatus(v).status == "high" ==> NutrientStatus(w).status == "high"
    ensures NutrientStatus(w).status == "low" ==> NutrientStatus(v).status == "low"
  {
  }

  const TooAcidic := "Too Acidic"
  const SlightlyAcidic := "Slightly Acidic"
  const Optimal := "Optimal"
  const SlightlyAlkaline := "Slightly Alkaline"
  const TooAlkaline := "Too Alkaline"

  /** `getPhStatus`: five bands, closed towards neutral on the alkaline side. */
  function PhStatus(ph: real): (s: Status)
    ensures s.status == TooAcidic <==> ph < 5.5
    ensures s.status == SlightlyAcidic <==> 5.5 <= ph < 6.5
    ensures s.status == Optimal <==> 6.5 <= ph <= 7.5
    ensures s.status == SlightlyAlkaline <==> 7.5 < ph <= 8.5
    ensures s.status == TooAlkaline <==> 8.5 < ph
    ensures s.color == Green <==> s.status == Optimal
    ensures s.color == Red <==> s.status in {TooAcidic, TooAlkaline}
  {
    if ph < 5.5 then Status(Red, TooAcidic)
    else if ph < 6.5 then Status(Amber, SlightlyAcidic)
    else if ph <= 7.5 then Status(Green, Optimal)
    else if ph <= 8.5 then Status(Amber, SlightlyAlkaline)
    else Status(Red, TooAlkaline)
  }

  /** The label of the opposite side of neutral. */
  function MirrorLabel(name: string): string
  {
    if name == TooAcidic then TooAlkaline
    else if name == SlightlyAcidic then SlightlyAlkaline
    else if name == SlightlyAlkaline then SlightlyAcidic
    else if name == TooAlkaline then TooAcidic
    else name
  }

  /**
   * The bands are symmetric about pH 7: reflecting a value through 7 swaps the
   * acidic and alkaline labels and keeps the colour, boundaries included.
   */
  lemma PhStatusMirror(ph: real)
    ensures PhStatus(14.0 - ph).color == PhStatus(ph).color
    ensures PhStatus(14.0 - ph).status == MirrorLabel(PhStatus(ph).status)
  {
  }

  /** The boundary values of the pH scale. */
  lemma PhBoundaries()
    ensures PhStatus(5.4).status == TooAcidic && PhStatus(5.5).status == SlightlyAcidic
    ensures PhStatus(6.5).status == Optimal && PhStatus(7.5).status == Optimal
    ensures PhStatus(8.5).status == SlightlyAlkaline && PhStatus(8.6).status == TooAlkaline
  {
  }

  // ----- the step indicator -----

  /** Circle `s` is drawn in the primary colour. */
  predicate CircleHighlighted(s: int, step: int) { s <= step }

  /** Circle `s` shows a check mark instead of its number. */
  predicate CircleChecked(s: int, step: int) { s < step }

  /** The connector after circle `s` (for `s` < 3) is filled. */
  predicate ConnectorFilled(s: int, step: int) { s < 3 && s < step }

  /** How many circles of the indicator satisfy `p` at the given step. */
  function CountCircles(step: int, p: (int, int) -> bool): nat
  {
    (if p(1, step) then 1 else 0) + (if p(2, step) then 1 else 0) + (if p(3, step) then 1 else 0)
  }

  /**
   * At step `k` the first `k` circles are highlighted, the first `k - 1` are
   * checked, the current one is highlighted without a check, and a connector
   * is filled exactly up to the current step.
   */
  lemma StepIndicator(step: int)
    requires 1 <= step <= 3
    ensures CountCircles(step, CircleHighlighted) == step
    ensures CountCircles(step, CircleChecked) == step - 1
    ensures CircleHighlighted(step, step) && !CircleChecked(step, step)
    ensures forall s :: 1 <= s <= 3 && CircleChecked(s, step) ==> CircleHighlighted(s, step)
    ensures forall s :: 1 <= s < 3 ==> (ConnectorFilled(s, step) <==> CircleChecked(s, step))
  {
  }

  // ----- the wizard -----

  /** The page's state: `step`, `recommendations`, the form and the analysis mutation. */
  class Wizard {
    var step: int
    var recommendations: Option<string>
    var form: SoilForm
    /** `analyzeMutation.isPending`. */
    var pending: bool

    ghost predicate Valid()
      reads this
    {
      && 1 <= step <= 3
      && (recommendations.Some? <==> step == 3)
      && (step == 3 ==> !pending)
      && SlidersInRange(form)
      && (form.soilType == "" || form.soilType in SoilTypes)
      && (step == 2 ==> form.soilType != "")
    }

    /** The results card is rendered (`step === 3 && recommendations`). */
    predicate ResultsShown()
      reads this
    {
      step == 3 && recommendations.Some? && recommendations.value != ""
    }

    constructor ()
      ensures Valid()
      ensures step == 1 && recommendations == None && form == DefaultForm && !pending
    {
      step := 1;
      recommendations := None;
      form := DefaultForm;
      pending := false;
    }

    /** Choosing an item of the soil-type select (rendered on step 1). */
    method SelectSoilType(t: string)
      requires Valid() && step == 1 && t in SoilTypes
      modifies this
      ensures Valid()
      ensures form == old(form).(soilType := t)
      ensures step == old(step) && recommendations == old(recommendations) && pending == old(pending)
    {
      form := form.(soilType := t);
    }

    /** Moving a slider (rendered on step 2); a slider only produces values in its range. */
    method MoveSlider(fld: Field, v: real)
      requires Valid() && step == 2 && fld != SoilType && InSlider(fld, v)
      modifies this
      ensures Valid()
      ensures form == WithValue(old(form), fld, v)
      ensures step == old(step) && recommendations == old(recommendations) && pending == old(pending)
    {
      form := WithValue(form, fld, v);
    }

    /** "Next" on step 1: disabled, so without effect, while no soil type is chosen. */
    method ClickNext() returns (moved: bool)
      requires Valid() && step == 1
      modifies this
      ensures Valid()
      ensures moved <==> old(form.soilType) != ""
      ensures step == (if moved then 2 else 1)
      ensures form == old(form) && recommendations == old(recommendations) && pending == old(pending)
    {
      moved := form.soilType != "";
      if moved {
        step := 2;
      }
    }

    /** "Previous" on step 2 (enabled even while an analysis is pending). */
    method ClickPrevious()
      requires Valid() && step == 2
      modifies this
      ensures Valid()
      ensures step == 1
      ensures form == old(form) && recommendations == old(recommendations) && pending == old(pending)
    {
      step := 1;
    }

    /**
     * "Get recommendations" on step 2: disabled while pending; otherwise the
     * form is validated and, when valid, sent. Inside the wizard the schema
     * never rejects, so every enabled click sends the current form.
     */
    method ClickAnalyze() returns (sent: Option<SoilForm>)
      requires Valid() && step == 2
      modifies this
      ensures Valid()
      ensures sent.Some? <==> !old(pending)
      ensures sent.Some? ==> sent.value == old(form) && Validate(sent.value).Ok?
      ensures pending == (old(pending) || sent.Some?)
      ensures step == 2 && form == old(form) && recommendations == old(recommendations)
    {
      if !pending {
        SlidersWithinSchema(form);
        var checked := Validate(form);
        sent := if checked.Ok? then Some(checked.value) else None;
        pending := checked.Ok?;
      } else {
        sent := None;
      }
    }

    /** The mutation's `onSuccess`: store the recommendation and show the results. */
    method OnAnalyzeSuccess(text: string)
      requires Valid() && pending
      modifies this
      ensures Valid()
      ensures step == 3 && recommendations == Some(text) && !pending
      ensures form == old(form)
    {
      recommendations := Some(text);
      step := 3;
      pending := false;
    }

    /** The mutation fails: nothing but the pending flag changes. */
    method OnAnalyzeError()
      requires Valid() && pending
      modifies this
      ensures Valid()
      ensures !pending
      ensures step == old(step) && recommendations == old(recommendations) && form == old(form)
    {
      pending := false;
    }

    /** "New analysis" on the results card: back to step 1 with the defaults. */
    method ClickNewAnalysis()
      requires Valid() && ResultsShown()
      modifies this
      ensures Valid()
      ensures step == 1 && recommendations == None && form == DefaultForm && !pending
    {
      step := 1;
      recommendations := None;
      form := DefaultForm;
    }
  }

  /**
   * A session through the wizard: Next is refused until a soil type is
   * chosen, the defaults are submitted, the answer is shown, and New
   * analysis starts over from the defaults.
   */
  method WizardRun(t: string, text: string)
    returns (nextWithoutType: bool, sent: Option<SoilForm>, shown: Option<string>, restart: (int, SoilForm))
    requires t in SoilTypes && text != ""
    ensures !nextWithoutType
    ensures sent == Some(DefaultForm.(soilType := t))
    ensures shown == Some(text)
    ensures restart == (1, DefaultForm)
  {
    var w := new Wizard();
    nextWithoutType := w.ClickNext();
    w.SelectSoilType(t);
    var moved := w.ClickNext();
    sent := w.ClickAnalyze();
    w.OnAnalyzeSuccess(text);
    shown := w.recommendations;
    w.ClickNewAnalysis();
    restart := (w.step, w.form);
  }
}
