# Trainer landing page: a Dafny model of its interactive core

The site is a bilingual (Ukrainian/Polish) landing page for a personal
trainer. Most of it is static presentation. Four parts hold behaviour, and
these are modelled here:

- **The transformation calculator** (`calculator.dfy`, `forecast.dfy`).
  - A range validator reports every bad numeric field at once.
  - A deterministic forecast turns age, height, weight, gender, activity,
    goal and duration into current and projected weight, fat percentage and
    muscle mass, plus the daily energy expenditure.
  - The input handler edits one field and discards stale results.
  - The "send to trainer" lead builds a localized request for `/api/contact`.
- **The contact form** (`contact_validation.dfy`, `contact_form.dfy`).
  - The phone check: strip separators, then 9 to 15 digits.
  - The email check: the regular expression `^[^\s@]+@[^\s@]+\.[^\s@]+$`.
  - The per-field error dictionary and the submit gate.
  - The submission flags and the posted request.
- **The image viewers** of the gallery (8 photos) and of the client
  transformations (5 before/after photos) (`lightbox.dfy`, `gallery.dfy`,
  `transformations.dfy`). Each has open, close, and wrap-around next and
  previous. Opening and closing set the overflow of the page body, which is
  one object shared by both viewers.
- **The language provider** (`language.dfy`): the current language, the
  modal flag and the browser's key/value preference store. It covers the
  mount effect with its Polish default, select, toggle, and the translation
  lookup that falls back to Ukrainian.

Modelling choices:

- Components with state are classes. Their React state variables are fields.
  Their handlers are methods with `modifies` frames.
- The arithmetic and the string checks are pure functions with lemmas.
- Numbers are exact reals. `Math.round` is rounding half up. A numeric text
  input is `Entry<T>`: `Blank`, or the entered text together with its
  parsed value.
- Each asynchronous POST is split in two: a `Start…` method returns the
  request, and a `Finish…` method takes the outcome (success or failure) as
  a parameter.
- The forecast has no age factors, activity-dependent rates or newbie
  bonus, takes muscle as 45% of lean mass, uses fixed weekly rates
  0.5/0.25/0.35/0.1 kg, and for the worked example (a 30-year-old man,
  180 cm, 90 kg, moderate activity, weight loss over 3 months) gives 84 kg
  (`Forecast.WorkedExample`).
- A typed entry is well formed: its text is non-empty and holds no line
  break (a single-line input cannot hold one).

Module layout: `Wrappers` (Option), `Text` (number rendering, search),
`Lead` (the shared request record), `Forecast`, `Calculator`,
`ContactValidation`, `ContactForm`, `Lightbox`, `GallerySection`,
`TransformationsSection`, `Language`.

## Model

| member | source | states |
|---|---|---|
| Forecast.Round | frontend/src/components/CalculatorSection.jsx:168 | `Math.round` gives an integer within half a unit of its argument |
| Forecast.Round1 | frontend/src/components/CalculatorSection.jsx:156-166 | rounding to one decimal place lands within 0.05 and on a whole number of tenths |
| Forecast.Round1AtLeast | frontend/src/components/CalculatorSection.jsx:159-164 | rounding to tenths never drops below a bound that is itself a whole number of tenths |
| Forecast.Round1AtMost | frontend/src/components/CalculatorSection.jsx:159-164 | rounding to tenths never rises above a bound that is itself a whole number of tenths |
| Forecast.Bmr | frontend/src/components/CalculatorSection.jsx:86-91 | Mifflin–St Jeor: 10·weight + 6.25·height − 5·age, plus 5 for men and minus 161 for women; no ensures of its own, characterised by `FemaleBmrOffset` and `WorkedExample` |
| Forecast.FemaleBmrOffset | frontend/src/components/CalculatorSection.jsx:85-91 | the female Mifflin–St Jeor BMR is the male one less 166 kcal |
| Forecast.ActivityMultiplier | frontend/src/components/CalculatorSection.jsx:93-98 | the activity multiplier lies between 1.2 and 1.55 |
| Forecast.Tdee | frontend/src/components/CalculatorSection.jsx:99 | the TDEE is BMR times the multiplier, to the nearest integer |
| Forecast.Bmi | frontend/src/components/CalculatorSection.jsx:104-106 | the body-mass index `weight / (height/100)²`: multiplied by the squared height in metres it gives back the weight |
| Forecast.FatPercentEstimate | frontend/src/components/CalculatorSection.jsx:101-107 | the fat estimate is clamped into 8–35 (male) or 15–42 (female), and no clamp is applied when the linear estimate lies in range |
| Forecast.CurrentFatPercent | frontend/src/components/CalculatorSection.jsx:101-107 | for a validated profile the current fat percentage lies in the gender's range |
| Forecast.MuscleMass | frontend/src/components/CalculatorSection.jsx:110-112 | 45% of the lean mass; for a non-negative weight and a fat percentage in 0–100 it lies between 0 and 0.45 times the weight |
| Forecast.CurrentMuscleMass | frontend/src/components/CalculatorSection.jsx:110-112 | the muscle estimate from the current fat percentage; no ensures of its own, bounded below by `CurrentMusclePositive` |
| Forecast.WeightLossAmount | frontend/src/components/CalculatorSection.jsx:118 | the weightLoss loss is the smaller of 0.5 kg a week and 15% of the weight |
| Forecast.MuscleGainAmount | frontend/src/components/CalculatorSection.jsx:130 | the muscleGain gain is the smaller of 0.25 kg a week and 6 kg, so it lies in 0–6 kg |
| Forecast.RecompositionLoss | frontend/src/components/CalculatorSection.jsx:143 | the complex loss is the smaller of 0.35 kg a week and 10% of the weight |
| Forecast.RecompositionGain | frontend/src/components/CalculatorSection.jsx:144 | the complex gain is the smaller of 0.1 kg a week and 2 kg, so it lies in 0–2 kg |
| Forecast.Project | frontend/src/components/CalculatorSection.jsx:116-147 | the unrounded target of the chosen goal; no ensures of its own, characterised by the three projection lemmas and the monotonicity lemmas |
| Forecast.CurrentMusclePositive | frontend/src/components/CalculatorSection.jsx:109-112 | for every validated profile the current muscle mass is at least 10.44 kg, so positive |
| Forecast.WeightLossProjection | frontend/src/components/CalculatorSection.jsx:116-121 | the weightLoss loss is 0.5 kg a week capped at 15% of weight; the target weight lies in [0.85 w, w); fat% falls by 0.8 and muscle by 0.1 per kg lost |
| Forecast.WeightLossMonotone | frontend/src/components/CalculatorSection.jsx:116-119 | a longer duration never loses less weight, nor gives a higher target weight, whatever the fat and muscle figures |
| Forecast.MuscleGainProjection | frontend/src/components/CalculatorSection.jsx:128-134 | the muscleGain gain is 0.25 kg a week up to 6 kg (1 kg a month below 6 months); weight rises by 1.3 times the gain, at most 7.8 kg; muscle rises by the gain; fat% falls by 0.5 |
| Forecast.MuscleGainMonotone | frontend/src/components/CalculatorSection.jsx:128-134 | a longer duration never gains less muscle and never gives a lower target weight, whatever the fat and muscle figures |
| Forecast.RecompositionProjection | frontend/src/components/CalculatorSection.jsx:141-147 | the complex loss is at most 10% of weight and the gain at most 2 kg; target weight w − loss + gain/2 stays in [0.9 w, w + 1]; fat% falls by 0.7 per kg lost; muscle rises by the gain |
| Forecast.RecompositionMonotone | frontend/src/components/CalculatorSection.jsx:143-144 | both complex amounts never decrease with the duration |
| Forecast.CurrentComposition | frontend/src/components/CalculatorSection.jsx:156-161 | the current weight is shown as entered; the rounded fat% stays in the gender's range; the rounded muscle mass is positive; both lie within 0.05 of their estimates |
| Forecast.ForecastComposition | frontend/src/components/CalculatorSection.jsx:162-166 | the forecast fat% is at least 6 (male) or 14 (female); each forecast figure lies within 0.05 of its target (fat% after the floor) |
| Forecast.FatFloor | frontend/src/components/CalculatorSection.jsx:164 | the forecast fat floor (6 for men, 14 for women) lies below the lowest current fat percentage of the gender |
| Forecast.CalculateResults | frontend/src/components/CalculatorSection.jsx:78-169 | for a validated profile the current part is the current composition of the profile and the forecast part is the forecast composition of its projected target, so the range, floor and rounding bounds above hold; the summary carries the computed deltas, and TDEE is as defined |
| Forecast.WorkedExample | frontend/src/components/CalculatorSection.jsx:83-168 | for a 30-year-old man, 180 cm, 90 kg, moderate, weight loss over 3 months: BMR 1880, TDEE 2585, forecast weight 84 kg |
| Calculator.Get | frontend/src/components/CalculatorSection.jsx:23-31 | reading a form field yields a value for that field |
| Calculator.WithField | frontend/src/components/CalculatorSection.jsx:209 | the spread update sets the named field and keeps every other field |
| Calculator.RangeErrors | frontend/src/components/CalculatorSection.jsx:53-67 | age, height and weight are each flagged exactly when blank or outside 16–70, 140–220, 40–200, with its own message, and nothing else is flagged |
| Calculator.RangeErrorsEmptyIffValid | frontend/src/components/CalculatorSection.jsx:69-70 | validation passes exactly when no field is flagged |
| Calculator.ParsedProfile | frontend/src/components/CalculatorSection.jsx:79-83 | the profile of a validated form passes the range check and carries the form's values |
| Calculator.GoalLabel | frontend/src/components/CalculatorSection.jsx:178-182 | every goal has a non-empty label in each language |
| Calculator.LeadMessage | frontend/src/components/CalculatorSection.jsx:184-186 | the lead message opens with the goal heading and label on its own line and ends with a blank line and the summary sentence |
| Calculator.ComposeRoundTrip | frontend/src/components/CalculatorSection.jsx:184-186 | after the first line, the three data lines give back the weight text, the forecast text and the months text exactly, followed by the summary |
| Calculator.ParseBodyRoundTrip | frontend/src/components/CalculatorSection.jsx:184-186 | the three labelled lines and the closing text of a lead message read back as the texts they were built from |
| Calculator.LeadMessageRoundTrip | frontend/src/components/CalculatorSection.jsx:184-186 | for a weight text without line breaks, the lead message gives back its goal, weight text, forecast weight in tenths, months and summary |
| Calculator.LeadCarriesWeight | frontend/src/components/CalculatorSection.jsx:184-186 | a lead built from a forecast weight with one decimal place gives back exactly that weight, with the goal, weight text, months and summary |
| Calculator.LeadCarriesResults | frontend/src/components/CalculatorSection.jsx:162-191 | the lead posted for a valid form names its goal, weight text, duration and summary, and exactly the forecast weight the calculation shows |
| Calculator.LeadName | frontend/src/components/CalculatorSection.jsx:190 | the posted name `Заявка з калькулятора` for `ua` and `Zgłoszenie z kalkulatora` otherwise; no ensures of its own |
| Calculator.LeadMessageNamesGoal | frontend/src/components/CalculatorSection.jsx:178-186 | the goal can be read back from the lead message, so different goals give different messages |
| Calculator.CalculatorSection.constructor | frontend/src/components/CalculatorSection.jsx:23-37 | the initial form is weight loss, male, moderate, 3 months with blank numbers; no errors, no results, both flags false |
| Calculator.CalculatorSection.ValidateForm | frontend/src/components/CalculatorSection.jsx:53-71 | the stored errors become exactly the range errors of the form, and the result is true exactly when the form is valid |
| Calculator.CalculatorSection.Calculate | frontend/src/components/CalculatorSection.jsx:73-169 | a valid form stores the results of its parsed profile; an invalid one keeps the old results; stored results always match the current form |
| Calculator.CalculatorSection.InputChange | frontend/src/components/CalculatorSection.jsx:208-215 | for a well-formed value, the named field changes, only its error is cleared, and the results and lead confirmation are discarded |
| Calculator.CalculatorSection.StartLead | frontend/src/components/CalculatorSection.jsx:175-193 | marks the lead in flight, keeps the section valid, and posts the localized name, phone `-` and the lead message built from the form and forecast weight |
| Calculator.CalculatorSection.FinishLead | frontend/src/components/CalculatorSection.jsx:194-205 | the request is no longer in flight; success shows the confirmation, failure leaves it unchanged |
| Text.DecimalText | frontend/src/components/CalculatorSection.jsx:185-186 | a month count renders as a non-empty string of digits with no leading zero |
| Text.DecimalRoundTrip | frontend/src/components/CalculatorSection.jsx:185-186 | a rendered month count reads back as the same number |
| Text.TenthsRoundTrip | frontend/src/components/CalculatorSection.jsx:185-186 | a forecast weight in whole tenths renders to text that reads back as the same value |
| Text.TenthsText | frontend/src/components/CalculatorSection.jsx:185-186 | a non-negative tenths value renders as a non-empty text that starts with a digit and holds no line break |
| Text.SignedTenthsText | frontend/src/components/CalculatorSection.jsx:185-186 | a tenths value renders with a leading minus exactly when it is negative, and with no line break |
| Text.SignedTenthsRoundTrip | frontend/src/components/CalculatorSection.jsx:185-186 | any whole number of tenths, negative or not, renders to text that reads back as the same value |
| Text.SplitLineRoundTrip | frontend/src/components/CalculatorSection.jsx:184-186 | a labelled line whose text holds no line break reads back as that text, followed by the rest of the message |
| Text.IndexOf | frontend/src/components/ContactSection.jsx:32 | the first occurrence of a character, or the length when it does not occur |
| ContactValidation.StripSeparators | frontend/src/components/ContactSection.jsx:26 | stripping separators never lengthens a string |
| ContactValidation.IsSeparator | frontend/src/components/ContactSection.jsx:26 | the characters the phone check removes (JavaScript whitespace, `-`, `+`, `(`, `)`); no separator is a digit |
| ContactValidation.ValidPhone | frontend/src/components/ContactSection.jsx:25-28 | after stripping separators, 9 to 15 ASCII digits; a valid phone is at least 9 characters long (full characterisation in `ValidPhoneIff`) |
| ContactValidation.ValidEmail | frontend/src/components/ContactSection.jsx:31-33 | the email check; an accepted address has at least 5 characters and contains `@` and `.` (full characterisation in `ValidEmailMatchesPattern`) |
| ContactValidation.StripMembers | frontend/src/components/ContactSection.jsx:26 | the stripped phone holds exactly the non-separator characters of the original |
| ContactValidation.StripIdempotent | frontend/src/components/ContactSection.jsx:26 | stripping twice is stripping once |
| ContactValidation.StripAppend | frontend/src/components/ContactSection.jsx:26 | stripping distributes over concatenation |
| ContactValidation.ValidPhoneOfStripped | frontend/src/components/ContactSection.jsx:25-28 | a phone and its stripped form get the same verdict |
| ContactValidation.RejectsForeignCharacter | frontend/src/components/ContactSection.jsx:25-28 | a phone with any character that is neither a separator nor a digit is rejected |
| ContactValidation.StripKeepsDigits | frontend/src/components/ContactSection.jsx:26-27 | a phone of separators and digits strips to exactly its digits |
| ContactValidation.ValidPhoneIff | frontend/src/components/ContactSection.jsx:25-28 | a phone is valid exactly when every character is a separator or a digit and it holds 9 to 15 digits |
| ContactValidation.ShortPhoneRejected | frontend/src/components/ContactSection.jsx:27 | a three-digit phone is rejected |
| ContactValidation.FormattedPhoneAccepted | frontend/src/components/ContactSection.jsx:25-28 | a number written `+CC AAA BBB CCC` with 9 to 15 digits in all is accepted |
| ContactValidation.ValidEmailMatchesPattern | frontend/src/components/ContactSection.jsx:31-33 | the email check accepts exactly the strings that split into a non-empty local part, `@`, a non-empty run, `.`, and a non-empty run, none containing whitespace or `@` |
| ContactValidation.PatternPieces | frontend/src/components/ContactSection.jsx:31-33 | any such split satisfies the email check |
| ContactValidation.EmailExamples | frontend/src/components/ContactSection.jsx:31-33 | `a@b` is rejected and `a@b.com` accepted |
| ContactForm.With | frontend/src/components/ContactSection.jsx:35-37 | the spread update sets the named field and keeps the other three |
| ContactForm.SubmitErrors | frontend/src/components/ContactSection.jsx:47-54 | the phone error is recorded exactly when the phone check fails and the email error exactly when the email check fails, both at once |
| ContactForm.SubmitErrorsEmptyIff | frontend/src/components/ContactSection.jsx:56-59 | submission is blocked exactly when one of the two checks fails |
| ContactForm.RequestFor | frontend/src/components/ContactSection.jsx:65-69 | the posted request carries the entered name and phone, and the email and message in one text |
| ContactForm.ContactMessage | frontend/src/components/ContactSection.jsx:68 | the posted text `Email: ` + email + two line breaks + message: it starts with `Email: `, ends with the message, and is 9 characters longer than the two together |
| ContactForm.ContactMessageRoundTrip | frontend/src/components/ContactSection.jsx:68 | for a validated email the posted text determines both the email and the message |
| ContactForm.ContactSection.constructor | frontend/src/components/ContactSection.jsx:11-20 | the form starts empty with no errors and all three flags false |
| ContactForm.ContactSection.Change | frontend/src/components/ContactSection.jsx:35-42 | the named field takes the value and only its error is cleared |
| ContactForm.ContactSection.StartSubmit | frontend/src/components/ContactSection.jsx:44-69 | a failing check records both errors and posts nothing; otherwise the request is returned, the form goes in flight and the error banner clears |
| ContactForm.ContactSection.FinishSubmit | frontend/src/components/ContactSection.jsx:70-88 | success empties the fields and shows the success banner; failure keeps the fields and shows the error banner; either way the form leaves flight |
| Lightbox.Next | frontend/src/components/GallerySection.jsx:26-28 | the next index stays in range and is the index plus one modulo the image count |
| Lightbox.Previous | frontend/src/components/GallerySection.jsx:22-24 | the previous index stays in range and is the one whose successor modulo the count is the current index |
| Lightbox.NextAfterPrevious | frontend/src/components/GallerySection.jsx:22-28 | next after previous is the identity |
| Lightbox.PreviousAfterNext | frontend/src/components/GallerySection.jsx:22-28 | previous after next is the identity |
| Lightbox.Advance | frontend/src/components/GallerySection.jsx:26-28 | any number of next presses stays in range |
| Lightbox.AdvanceWithoutWrap | frontend/src/components/GallerySection.jsx:26-28 | before the end of the list, k next presses add k |
| Lightbox.AdvanceCompose | frontend/src/components/GallerySection.jsx:26-28 | a presses then b presses are a + b presses |
| Lightbox.AdvanceFullCycle | frontend/src/components/GallerySection.jsx:22-28 | as many next presses as there are images return to the start |
| Lightbox.LightboxView.constructor | frontend/src/components/GallerySection.jsx:8 | a viewer starts closed |
| Lightbox.LightboxView.Open | frontend/src/components/GallerySection.jsx:12-15 | opening selects the clicked index and sets the body overflow to hidden |
| Lightbox.LightboxView.Close | frontend/src/components/GallerySection.jsx:17-20 | closing clears the selection and sets the body overflow to auto |
| Lightbox.LightboxView.GoToNext | frontend/src/components/GallerySection.jsx:26-28 | the selection becomes its wrap-around successor and stays in range |
| Lightbox.LightboxView.GoToPrevious | frontend/src/components/GallerySection.jsx:22-24 | the selection becomes its wrap-around predecessor and stays in range |
| GallerySection.NewGalleryLightbox | frontend/src/components/GallerySection.jsx:3-8 | the gallery viewer starts closed over the 8 gallery photos |
| GallerySection.GalleryWrapsAround | frontend/src/components/GallerySection.jsx:22-28 | photo 7 steps forward to 0 and photo 0 steps back to 7 |
| GallerySection.GalleryFullCycle | frontend/src/components/GallerySection.jsx:22-28 | eight next presses return to the starting photo |
| TransformationsSection.NewTransformationsLightbox | frontend/src/components/TransformationsSection.jsx:43-45 | the viewer starts closed over the 5 transformations |
| TransformationsSection.TransformationsWrapAround | frontend/src/components/TransformationsSection.jsx:64-70 | index 4 steps forward to 0 and index 0 steps back to 4 |
| TransformationsSection.TransformationsStepsInvert | frontend/src/components/TransformationsSection.jsx:64-70 | next and previous are mutual inverses on the five indices |
| TransformationsSection.TransformationsFullCycle | frontend/src/components/TransformationsSection.jsx:64-70 | five next presses return to the start |
| Language.Toggled | frontend/src/context/LanguageContext.js:36 | the toggle target is `pl` exactly when the current language is `ua`, and `ua` otherwise |
| Language.ToggleTwice | frontend/src/context/LanguageContext.js:35-38 | toggling twice from `ua` or `pl` restores it |
| Language.Translate | frontend/src/context/LanguageContext.js:40 | the lookup returns the current language's table when there is one, and the Ukrainian table for no language or an unknown code |
| Language.TranslateShippedTables | frontend/src/context/LanguageContext.js:40 | with the `ua` and `pl` tables, `pl` finds its own table and every other value finds Ukrainian |
| Language.LanguageProvider.constructor | frontend/src/context/LanguageContext.js:15-16 | before the mount effect there is no language and the modal is closed |
| Language.LanguageProvider.Init | frontend/src/context/LanguageContext.js:18-27 | a saved non-empty preference becomes the language and the store is untouched; otherwise the language is `pl` and `pl` is saved; afterwards the store holds the language |
| Language.LanguageProvider.SelectLanguage | frontend/src/context/LanguageContext.js:29-33 | the language becomes the chosen one, it is saved, and the modal stays closed |
| Language.LanguageProvider.ToggleLanguage | frontend/src/context/LanguageContext.js:35-38 | the language becomes its toggle, which is saved, and the modal stays closed |

## Left out

- Rendering: the JSX, styling, icons and images are not modelled. This includes the display of deltas and signs in the results panel.
- Timers are not modelled. These are the 800 ms calculation delay, the 1500 ms scroll after a lead, and the 5000 ms banner resets of the contact form. Calculation is immediate in the model.
- Calculator.CalculatorSection.Calculate: the model cannot show that an edit made during the 800 ms delay is overwritten by results computed from the form as it was before the edit, since the model has no delay.
- The network (axios), the error log, Google Ads tracking, `document.getElementById` and scrolling are not modelled. Each POST's outcome is a parameter.
- Floating point is not modelled: arithmetic is exact, and `Math.round` is rounding half up on exact values.
- Number-to-string: only non-negative month counts and whole numbers of tenths are rendered, which is what the lead message shows. `toFixed` is not modelled.
- The summary sentence: the projection returns its deltas as a `Summary`. The lead takes the rendered sentence as an opaque string.
- `parseInt`/`parseFloat`: a typed entry is its text together with the parsed number. Partial parses such as `"70abc"` and `NaN` are not modelled.
- The contact form's browser-side `required` and `type="email"` checks are not modelled, only the component's own checks.
- Calculator.CalculatorSection.InputChange and ContactForm.ContactSection.Change: the source clears an error by setting it to `null`. The model removes the key. Renders use the truthiness of the error, so the two read the same.
- The calculator's `isCalculating` flag disables the Calculate button and shows a spinner during the 800 ms delay. The model has no delay, so the flag would have no effect and is not modelled.
- Language.Translate: a lookup by an inherited object key (such as `constructor`) is not modelled.
- Language.Translate: the translation tables themselves are not modelled. The lookup is generic over their content.
- The viewers' next and previous buttons only appear while an image is selected. `GoToNext` and `GoToPrevious` therefore require a selection. Calling the source's handlers with no selection is unreachable.
- The backend (`backend/server.py`) and the static data of `frontend/src/data/mock.js` are not part of this model. The only exceptions are the gallery photo list and the set of translation codes, used as constants.
- The presentational components (header, hero, about, services, reviews, footer, social bar, language modal, app shell) are not part of this model.
- JavaScript strings are UTF-16. The model uses Unicode scalar values, which gives the same verdicts for the phone and email checks.
