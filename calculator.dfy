/**
 * The calculator component's state: the form record, the per-field error
 * dictionary, the stored results and the two flags of the lead request.
 * Calculation is modelled as immediate (the cosmetic 800 ms delay is left
 * out); the lead POST is split into its start and its outcome.
 */
module Calculator {
  import opened Wrappers
  import opened Forecast
  import opened Text
  import opened Lead

  /** A numeric text input: blank, or entered text together with the number it parses to. */
  datatype Entry<T> = Blank | Entered(text: string, value: T)

  /**
   * An empty input is blank (the validator's `!formData.age` treats `""` so),
   * and the value of a number input never holds a line break.
   */
  predicate WellFormedEntry<T>(e: Entry<T>) {
    e.Entered? ==> e.text != "" && '\n' !in e.text
  }

  datatype CalcForm = CalcForm(
    goal: Goal,
    gender: Gender,
    age: Entry<int>,
    height: Entry<int>,
    weight: Entry<real>,
    activity: Activity,
    duration: nat)

  /** The form as first shown: weight loss, male, moderate activity, 3 months, numbers blank. */
  const InitialForm := CalcForm(WeightLoss, Male, Blank, Blank, Blank, Moderate, 3)

  datatype Field = GoalField | GenderField | AgeField | HeightField | WeightField | ActivityField | DurationField

  /** A new value for one field, as passed to the input-change handler. */
  datatype FieldValue =
    | GoalValue(goal: Goal)
    | GenderValue(gender: Gender)
    | AgeValue(age: Entry<int>)
    | HeightValue(height: Entry<int>)
    | WeightValue(weight: Entry<real>)
    | ActivityValue(activity: Activity)
    | DurationValue(duration: nat)

  predicate WellFormedValue(v: FieldValue) {
    match v
    case AgeValue(a) => WellFormedEntry(a)
    case HeightValue(h) => WellFormedEntry(h)
    case WeightValue(w) => WellFormedEntry(w)
    case _ => true
  }

  predicate WellFormedForm(form: CalcForm) {
    WellFormedEntry(form.age) && WellFormedEntry(form.height) && WellFormedEntry(form.weight)
  }

  function FieldOf(v: FieldValue): Field {
    match v
    case GoalValue(_) => GoalField
    case GenderValue(_) => GenderField
    case AgeValue(_) => AgeField
    case HeightValue(_) => HeightField
    case WeightValue(_) => WeightField
    case ActivityValue(_) => ActivityField
    case DurationValue(_) => DurationField
  }

  /** The current value of one field. */
  function Get(form: CalcForm, f: Field): (v: FieldValue)
    ensures FieldOf(v) == f
  {
    match f
    case GoalField => GoalValue(form.goal)
    case GenderField => GenderValue(form.gender)
    case AgeField => AgeValue(form.age)
    case HeightField => HeightValue(form.height)
    case WeightField => WeightValue(form.weight)
    case ActivityField => ActivityValue(form.activity)
    case DurationField => DurationValue(form.duration)
  }

  /** `{ ...prev, [field]: value }`: the named field takes the new value, every other field is kept. */
  function WithField(form: CalcForm, v: FieldValue): (r: CalcForm)
    ensures Get(r, FieldOf(v)) == v
    ensures forall f :: f != FieldOf(v) ==> Get(r, f) == Get(form, f)
  {
    match v
    case GoalValue(g) => form.(goal := g)
    case GenderValue(g) => form.(gender := g)
    case AgeValue(a) => form.(age := a)
    case HeightValue(h) => form.(height := h)
    case WeightValue(w) => form.(weight := w)
    case ActivityValue(a) => form.(activity := a)
    case DurationValue(d) => form.(duration := d)
  }

  /** The localized messages of the three range errors. */
  datatype RangeMessages = RangeMessages(ageRange: string, heightRange: string, weightRange: string)

  predicate AgeOk(e: Entry<int>) { e.Entered? && 16 <= e.value <= 70 }
  predicate HeightOk(e: Entry<int>) { e.Entered? && 140 <= e.value <= 220 }
  predicate WeightOk(e: Entry<real>) { e.Entered? && 40.0 <= e.value <= 200.0 }

  predicate FormValid(form: CalcForm) {
    AgeOk(form.age) && HeightOk(form.height) && WeightOk(form.weight)
  }

  /**
   * The error dictionary validation produces: every blank or out-of-range
   * numeric field is flagged, all at once, with its own message, and nothing
   * else is.
   */
  function RangeErrors(form: CalcForm, msgs: RangeMessages): (e: map<Field, string>)
    ensures e.Keys <= {AgeField, HeightField, WeightField}
    ensures AgeField in e <==> !AgeOk(form.age)
    ensures HeightField in e <==> !HeightOk(form.height)
    ensures WeightField in e <==> !WeightOk(form.weight)
    ensures AgeField in e ==> e[AgeField] == msgs.ageRange
    ensures HeightField in e ==> e[HeightField] == msgs.heightRange
    ensures WeightField in e ==> e[WeightField] == msgs.weightRange
  {
    (if AgeOk(form.age) then map[] else map[AgeField := msgs.ageRange])
    + (if HeightOk(form.height) then map[] else map[HeightField := msgs.heightRange])
    + (if WeightOk(form.weight) then map[] else map[WeightField := msgs.weightRange])
  }

  /** Validation succeeds exactly when no field is flagged. */
  lemma RangeErrorsEmptyIffValid(form: CalcForm, msgs: RangeMessages)
    ensures RangeErrors(form, msgs) == map[] <==> FormValid(form)
  {
    var e := RangeErrors(form, msgs);
    if FormValid(form) {
      assert e.Keys == {};
    }
  }

  /** The numbers of a validated form, as the calculation reads them. */
  function ParsedProfile(form: CalcForm): (p: Profile)
    requires FormValid(form)
    ensures InRange(p)
    ensures p.goal == form.goal && p.gender == form.gender && p.activity == form.activity && p.duration == form.duration
    ensures p.age == form.age.value && p.height == form.height.value && p.weight == form.weight.value
  {
    Profile(form.goal, form.gender, form.age.value, form.height.value, form.weight.value, form.activity, form.duration)
  }

  /** Whether the language code selects the Ukrainian texts (anything else gets Polish). */
  predicate IsUa(language: string) { language == "ua" }

  function GoalLabel(language: string, goal: Goal): (s: string)
    ensures |s| > 0
  {
    if IsUa(language) then
      match goal
      case WeightLoss => "Схуднення"
      case MuscleGain => "Набір маси"
      case Complex => "Комплекс"
    else
      match goal
      case WeightLoss => "Odchudzanie"
      case MuscleGain => "Budowanie masy"
      case Complex => "Kompleks"
  }

  /** The first line's text before the goal label. */
  function GoalHeading(language: string): string {
    if IsUa(language) then "🎯 Ціль: " else "🎯 Cel: "
  }

  /** The lead message's first line: the heading and the goal label. */
  function GoalLine(language: string, goal: Goal): (s: string)
    ensures |s| == |GoalHeading(language)| + |GoalLabel(language, goal)| + 1
  {
    GoalHeading(language) + GoalLabel(language, goal) + "\n"
  }

  /** The fixed texts of the lead message's three data lines in one language. */
  datatype LeadTexts = LeadTexts(current: string, target: string, term: string, kg: string, months: string)

  function Texts(language: string): (x: LeadTexts)
    ensures '\n' !in x.kg && '\n' !in x.months
  {
    if IsUa(language) then LeadTexts("📊 Поточна вага: ", "🎯 Цільова вага: ", "⏱ Термін: ", " кг", " міс.")
    else LeadTexts("📊 Aktualna waga: ", "🎯 Docelowa waga: ", "⏱ Okres: ", " kg", " mies.")
  }

  /**
   * The lead message: the goal line, then the entered weight text, the
   * forecast weight and the duration in months each on its own line, then a
   * blank line and the summary sentence. The forecast weight is a whole
   * number of tenths and is rendered as JavaScript renders such a number.
   */
  function LeadMessage(language: string, goal: Goal, weightText: string, forecastWeight: real, duration: nat, summaryText: string): (m: string)
    ensures |m| >= |GoalHeading(language)| + |GoalLabel(language, goal)| + 3 + |summaryText|
    ensures m[..|GoalLine(language, goal)|] == GoalLine(language, goal)
    ensures m[|m| - |summaryText| - 2..] == "\n\n" + summaryText
  {
    Compose(GoalLine(language, goal), Texts(language), weightText, SignedTenthsText((forecastWeight * 10.0).Floor), DecimalText(duration), summaryText)
  }

  /**
   * A message of a first line, the three data lines for the weight text, the
   * forecast text and the months text, a blank line and a closing text.
   */
  function Compose(head: string, x: LeadTexts, w: string, ws: string, ms: string, summary: string): (m: string)
    ensures |m| >= |head| + 2 + |summary|
    ensures m[..|head|] == head
    ensures m[|m| - |summary| - 2..] == "\n\n" + summary
  {
    var last := Line(x.term, ms, x.months);
    var m := head + Line(x.current, w, x.kg) + Line(x.target, ws, x.kg) + last + "\n" + summary;
    assert m[..|head|] == head;
    assert m[|m| - |summary| - 2] == last[|last| - 1];
    assert m[|m| - |summary| - 2..] == "\n\n" + summary;
    m
  }

  /** Whatever the first line, a composed message's data lines and closing text read back exactly. */
  lemma ComposeRoundTrip(head: string, x: LeadTexts, w: string, ws: string, ms: string, summary: string)
    requires '\n' !in x.kg && '\n' !in x.months
    requires '\n' !in w && '\n' !in ws && '\n' !in ms
    ensures var m := Compose(head, x, w, ws, ms, summary);
            |head| <= |m| && m[..|head|] == head && ParseBody(m[|head|..], x) == Some((w, ws, ms, summary))
  {
    var m := Compose(head, x, w, ws, ms, summary);
    var rest := Line(x.current, w, x.kg) + Line(x.target, ws, x.kg) + Line(x.term, ms, x.months) + "\n" + summary;
    assert m == head + rest;
    assert m[|head|..] == rest;
    ParseBodyRoundTrip(x, w, ws, ms, summary);
  }

  /** What a lead message carries: goal, entered weight text, forecast weight in tenths, months, summary. */
  datatype LeadContent = LeadContent(goal: Goal, weightText: string, forecastTenths: int, months: nat, summary: string)

  /**
   * Reads the three data lines, the blank line and the closing text that
   * follow the goal line: the weight text, the forecast text, the months text
   * and the summary.
   */
  function ParseBody(r: string, x: LeadTexts): Option<(string, string, string, string)> {
    var a := SplitLine(r, x.current, x.kg);
    if a.None? then None
    else
      var b := SplitLine(a.value.1, x.target, x.kg);
      if b.None? then None
      else
        var c := SplitLine(b.value.1, x.term, x.months);
        if c.None? then None
        else
          var tail := c.value.1;
          if |tail| > 0 && tail[0] == '\n' then Some((a.value.0, b.value.0, c.value.0, tail[1..])) else None
  }

  /** ParseBody succeeds once each of its three line splits does and a blank line follows. */
  lemma ParseBodyOfSplits(r: string, x: LeadTexts, w: string, ws: string, ms: string, r1: string, r2: string, tail: string)
    requires SplitLine(r, x.current, x.kg) == Some((w, r1))
    requires SplitLine(r1, x.target, x.kg) == Some((ws, r2))
    requires SplitLine(r2, x.term, x.months) == Some((ms, tail))
    requires |tail| > 0 && tail[0] == '\n'
    ensures ParseBody(r, x) == Some((w, ws, ms, tail[1..]))
  {
  }

  /** Three data lines whose texts hold no line break are read back exactly. */
  lemma ParseBodyRoundTrip(x: LeadTexts, w: string, ws: string, ms: string, summary: string)
    requires '\n' !in x.kg && '\n' !in x.months
    requires '\n' !in w && '\n' !in ws && '\n' !in ms
    ensures ParseBody(Line(x.current, w, x.kg) + Line(x.target, ws, x.kg) + Line(x.term, ms, x.months) + "\n" + summary, x)
      == Some((w, ws, ms, summary))
  {
    var l1, l2, l3 := Line(x.current, w, x.kg), Line(x.target, ws, x.kg), Line(x.term, ms, x.months);
    var tail := "\n" + summary;
    var r2 := l3 + tail;
    var r1 := l2 + r2;
    var full := l1 + l2 + l3 + "\n" + summary;
    assert full == l1 + r1;
    SplitLineRoundTrip(x.current, w, x.kg, r1);
    SplitLineRoundTrip(x.target, ws, x.kg, r2);
    SplitLineRoundTrip(x.term, ms, x.months, tail);
    assert tail[1..] == summary;
    ParseBodyOfSplits(full, x, w, ws, ms, r1, r2, tail);
  }

  /** Reads a lead message back: the goal from its first line, then the three data lines and the summary. */
  function ParseLeadMessage(language: string, m: string): Option<LeadContent> {
    match GoalOfMessage(language, m)
    case None => None
    case Some(goal) =>
      var head := GoalLine(language, goal);
      if |m| < |head| || m[..|head|] != head then None
      else
        match ParseBody(m[|head|..], Texts(language))
        case None => None
        case Some((w, ft, mo, summary)) =>
          if AllDigits(mo) then Some(LeadContent(goal, w, ParseSignedTenths(ft), ParseDecimal(mo), summary)) else None
  }

  /** The goal a lead message names: read from the first character of its label. */
  function GoalOfMessage(language: string, m: string): Option<Goal>
  {
    var k := |GoalHeading(language)|;
    if |m| <= k then None
    else if m[k] == GoalLabel(language, WeightLoss)[0] then Some(WeightLoss)
    else if m[k] == GoalLabel(language, MuscleGain)[0] then Some(MuscleGain)
    else if m[k] == GoalLabel(language, Complex)[0] then Some(Complex)
    else None
  }

  /** The goal can be read back from the lead message, so different goals give different messages. */
  lemma LeadMessageNamesGoal(language: string, goal: Goal, weightText: string, forecastWeight: real, duration: nat, summaryText: string)
    ensures GoalOfMessage(language, LeadMessage(language, goal, weightText, forecastWeight, duration, summaryText)) == Some(goal)
  {
    var m := LeadMessage(language, goal, weightText, forecastWeight, duration, summaryText);
    var k := |GoalHeading(language)|;
    var prefix := GoalLine(language, goal);
    assert m[..|prefix|] == prefix;
    assert m[k] == prefix[k] == GoalLabel(language, goal)[0];
  }

  /**
   * For a weight text without line breaks the lead message gives back the
   * goal, the weight text, the forecast weight in tenths, the months and the
   * summary it was built from.
   */
  lemma LeadMessageRoundTrip(language: string, goal: Goal, weightText: string, forecastWeight: real, duration: nat, summaryText: string)
    requires '\n' !in weightText
    ensures ParseLeadMessage(language, LeadMessage(language, goal, weightText, forecastWeight, duration, summaryText))
      == Some(LeadContent(goal, weightText, (forecastWeight * 10.0).Floor, duration, summaryText))
  {
    var ws, ms := SignedTenthsText((forecastWeight * 10.0).Floor), DecimalText(duration);
    assert '\n' !in ms by {
      assert forall i :: 0 <= i < |ms| ==> ms[i] != '\n';
    }
    ComposeRoundTrip(GoalLine(language, goal), Texts(language), weightText, ws, ms, summaryText);
    LeadMessageNamesGoal(language, goal, weightText, forecastWeight, duration, summaryText);
    SignedTenthsRoundTrip((forecastWeight * 10.0).Floor);
    DecimalRoundTrip(duration);
    ParseLeadOfParts(language, LeadMessage(language, goal, weightText, forecastWeight, duration, summaryText), goal, weightText, ws, ms, summaryText);
  }

  /** ParseLeadMessage succeeds once the goal line matches and the body parses. */
  lemma ParseLeadOfParts(language: string, m: string, goal: Goal, w: string, ws: string, ms: string, summary: string)
    requires GoalOfMessage(language, m) == Some(goal)
    requires var head := GoalLine(language, goal);
             |head| <= |m| && m[..|head|] == head && ParseBody(m[|head|..], Texts(language)) == Some((w, ws, ms, summary))
    requires AllDigits(ms)
    ensures ParseLeadMessage(language, m) == Some(LeadContent(goal, w, ParseSignedTenths(ws), ParseDecimal(ms), summary))
  {
  }

  /**
   * The lead sent for stored results names the form's goal, weight text and
   * duration, the summary, and exactly the forecast weight that was shown.
   */
  lemma LeadCarriesResults(language: string, form: CalcForm, summaryText: string)
    requires FormValid(form) && WellFormedForm(form)
    ensures var r := CalculateResults(ParsedProfile(form));
            var c := ParseLeadMessage(language, LeadMessage(language, form.goal, form.weight.text, r.forecast.weight, form.duration, summaryText));
            && c.Some?
            && c.value.goal == form.goal && c.value.weightText == form.weight.text
            && c.value.forecastTenths as real / 10.0 == r.forecast.weight
            && c.value.months == form.duration && c.value.summary == summaryText
  {
    var w := CalculateResults(ParsedProfile(form)).forecast.weight;
    assert WholeTenths(w);
    LeadCarriesWeight(language, form.goal, form.weight.text, w, form.duration, summaryText);
  }

  /** A lead built from a forecast weight with at most one decimal place carries exactly that weight. */
  lemma LeadCarriesWeight(language: string, goal: Goal, weightText: string, forecastWeight: real, duration: nat, summaryText: string)
    requires '\n' !in weightText && WholeTenths(forecastWeight)
    ensures var c := ParseLeadMessage(language, LeadMessage(language, goal, weightText, forecastWeight, duration, summaryText));
            && c.Some?
            && c.value.goal == goal && c.value.weightText == weightText
            && c.value.forecastTenths as real / 10.0 == forecastWeight
            && c.value.months == duration && c.value.summary == summaryText
  {
    LeadMessageRoundTrip(language, goal, weightText, forecastWeight, duration, summaryText);
  }

  /** The name posted with a calculator lead. */
  function LeadName(language: string): string {
    if IsUa(language) then "Заявка з калькулятора" else "Zgłoszenie z kalkulatora"
  }

  class CalculatorSection {
    var form: CalcForm
    var errors: map<Field, string>
    var results: Option<Results>
    var isSubmitting: bool
    var submitSuccess: bool

    /**
     * Only range errors are ever recorded, and stored results are always the
     * calculation of the form as it now stands (any edit discards them).
     */
    ghost predicate Valid()
      reads this
    {
      && WellFormedForm(form)
      && errors.Keys <= {AgeField, HeightField, WeightField}
      && (results.Some? ==> FormValid(form) && results.value == CalculateResults(ParsedProfile(form)))
    }

    constructor ()
      ensures Valid()
      ensures form == InitialForm && errors == map[] && results == None
      ensures !isSubmitting && !submitSuccess
    {
      form := InitialForm;
      errors := map[];
      results := None;
      isSubmitting := false;
      submitSuccess := false;
    }

    /** `validateForm`: rebuilds the error dictionary field by field and reports whether it is empty. */
    method ValidateForm(msgs: RangeMessages) returns (ok: bool)
      modifies this`errors
      ensures errors == RangeErrors(form, msgs)
      ensures ok <==> FormValid(form)
    {
      var f := form;
      var newErrors: map<Field, string> := map[];
      if !f.age.Entered? || f.age.value < 16 || f.age.value > 70 {
        newErrors := newErrors[AgeField := msgs.ageRange];
      }
      assert newErrors == if AgeOk(f.age) then map[] else map[AgeField := msgs.ageRange];
      ghost var afterAge := newErrors;
      if !f.height.Entered? || f.height.value < 140 || f.height.value > 220 {
        newErrors := newErrors[HeightField := msgs.heightRange];
      }
      assert newErrors == afterAge + if HeightOk(f.height) then map[] else map[HeightField := msgs.heightRange];
      ghost var afterHeight := newErrors;
      if !f.weight.Entered? || f.weight.value < 40.0 || f.weight.value > 200.0 {
        newErrors := newErrors[WeightField := msgs.weightRange];
      }
      assert newErrors == afterHeight + if WeightOk(f.weight) then map[] else map[WeightField := msgs.weightRange];
      assert newErrors == RangeErrors(f, msgs);
      errors := newErrors;
      RangeErrorsEmptyIffValid(f, msgs);
      ok := newErrors == map[];  // no key recorded
    }

    /** `calculateResults`: validate, and only on success replace the results. */
    method Calculate(msgs: RangeMessages)
      requires Valid()
      modifies this`errors, this`results
      ensures Valid()
      ensures errors == RangeErrors(form, msgs)
      ensures FormValid(form) ==> results == Some(CalculateResults(ParsedProfile(form)))
      ensures !FormValid(form) ==> results == old(results)
    {
      var ok := ValidateForm(msgs);
      if ok {
        results := Some(CalculateResults(ParsedProfile(form)));
      }
    }

    /**
     * `handleInputChange`: the named field takes the new value and only its
     * error is cleared; results and the lead confirmation are discarded.
     */
    method InputChange(v: FieldValue)
      requires Valid() && WellFormedValue(v)
      modifies this`form, this`errors, this`results, this`submitSuccess
      ensures Valid()
      ensures form == WithField(old(form), v)
      ensures errors == old(errors) - {FieldOf(v)}
      ensures results == None && !submitSuccess
    {
      form := WithField(form, v);
      if FieldOf(v) in errors {
        errors := errors - {FieldOf(v)};
      }
      results := None;
      submitSuccess := false;
    }

    /**
     * `handleCtaClick` up to the POST: sets the in-flight flag and returns the
     * request, whose phone is the literal `-`. The button exists only while
     * results are shown and is disabled while a request is in flight.
     */
    method StartLead(language: string, summaryText: string) returns (request: ContactRequest)
      requires Valid() && results.Some? && !isSubmitting
      modifies this`isSubmitting
      ensures Valid() && isSubmitting
      ensures request.name == LeadName(language) && request.phone == "-"
      ensures request.message == LeadMessage(language, form.goal, form.weight.text, results.value.forecast.weight, form.duration, summaryText)
    {
      isSubmitting := true;
      request := ContactRequest(LeadName(language), "-",
        LeadMessage(language, form.goal, form.weight.text, results.value.forecast.weight, form.duration, summaryText));
    }

    /** The POST settles: success shows the confirmation, failure leaves it as it was. */
    method FinishLead(succeeded: bool)
      requires Valid()
      modifies this`isSubmitting, this`submitSuccess
      ensures Valid()
      ensures !isSubmitting
      ensures submitSuccess == (succeeded || old(submitSuccess))
    {
      if succeeded {
        submitSuccess := true;
      }
      isSubmitting := false;
    }
  }
}
