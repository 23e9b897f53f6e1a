# ARHL clinical estimation engine in Dafny

This project models the estimation engine of the ARHL desktop calculator
(`src/App.jsx`). The calculator estimates age-related hearing thresholds from
quadratic regression models fitted to NHANES data and compares them with a patient's
entered audiogram. The engine has these parts:

- `Regression`: `applyModel`, which evaluates `c + b*age + a*age^2` and yields 0 for an
  absent coefficient triple. It also holds the constant per-frequency table
  (`freqModels`), the composite-index table (`PTA_MODELS`) and the seven frequencies.
- `Asha`: the ASHA degree-of-hearing-loss classifier `getASHAStatus`. It has seven bands
  with inclusive upper cutoffs at 15, 25, 40, 55, 70 and 90 dB. Only the label is
  modelled.
- `Estimates`: the floored per-frequency estimates used by the audiogram and the
  frequency grid, and the PTA card estimates. On the cards only the median is floored.
- `Patient`: the patient-entry state, a map from frequency to an optional threshold.
  It is a class with the `handleInput` edit and the Clear Input reset. This module also
  holds the two patient PTAs, each defined only when all of its frequencies are entered.
- `Audiogram`: the per-frequency points (`FREQUENCIES.map(...)`) shared by the chart and
  the grid, and the band shown for an entered value.

Values are exact reals. Ages are integers, as the slider's `parseInt` yields. A patient
entry is `Option<real>`, where `None` stands for the empty string of an unfilled field.

## Model

| member | source | states |
|---|---|---|
| Regression.ApplyModel | src/App.jsx:27-30 | an absent triple yields 0; for a present triple, the result minus the intercept is age times (b + a*age) |
| Regression.FreqModel | src/App.jsx:166-170 | the `freqModels[sex]["f<hz>"]` and `"f<hz>_p95"` lookup is present exactly when hz is one of the seven frequencies, for both sexes and both tiers; the table at src/App.jsx:53-94 is complete, so the interface's lookups never reach the absent branch of `applyModel` |
| Regression.PtaModel | src/App.jsx:286-289 | the `PTA_MODELS[sex]` lookup is present for both sexes, both PTA indices and both tiers, as the table at src/App.jsx:96-109 holds |
| Regression.ApplyModelExample | src/App.jsx:56 | the male 500 Hz median model at age 50 gives 6.8 - 4.5 + 7.5 = 9.8 dB |
| Regression.ModelDifference | src/App.jsx:29 | the change of a model between two ages is (y - x) * (b + a*(x + y)) |
| Regression.RisingModelIsMonotone | src/App.jsx:29 | a model whose slope is non-negative at both ends of an interval never decreases on it |
| Regression.TablesRiseOnSlider | src/App.jsx:53-109 | every table entry except the female PTA-5123 median has a non-negative slope across the whole 20-80 age slider |
| Asha.Status | src/App.jsx:35-43 | the band returned contains the value: above the previous cutoff and at or below its own cutoff (cutoffs 15, 25, 40, 55, 70, 90; Normal unbounded below, Profound unbounded above) |
| Asha.StatusRankCountsCutoffs | src/App.jsx:35-43 | a band's rank equals the number of cutoffs strictly below the value |
| Asha.BandUnique | src/App.jsx:35-43 | no value lies in two bands, so the classification is unique |
| Asha.StatusMonotone | src/App.jsx:35-43 | if x <= y then the band of x ranks no higher than the band of y |
| Asha.DisplayedRangesAgree | src/App.jsx:334-341 | for whole-dB values, each band holds exactly its displayed range (0-15, 16-25, 26-40, 41-55, 56-70, 71-90, 91+), and negative values are Normal |
| Asha.Label | src/App.jsx:36-42 | the label of each band is the information panel's name at that band's rank, in the order Normal, Slight, Mild, Moderate, Mod-Severe, Severe, Profound |
| Asha.LabelsDistinct | src/App.jsx:36-42 | distinct bands carry distinct labels |
| Estimates.Floor0 | src/App.jsx:169 | `Math.max(0, x)`: the result is non-negative, at least x, and is either x or 0 |
| Estimates.FrequencyEstimate | src/App.jsx:409-410 | both the median and the 95th percentile are non-negative; each equals the raw model value when that is non-negative and 0 otherwise |
| Estimates.CompositeEstimate | src/App.jsx:288-289 | the PTA median is non-negative, and equals the raw model when that is non-negative and 0 otherwise; the 95th percentile is the raw model value, unfloored |
| Estimates.CompositeP95IsNotFloored | src/App.jsx:288-289 | at age 0 the male PTA-234 95th percentile is negative, while the male 3000 Hz 95th percentile, which is floored, is 0 |
| Estimates.FrequencyEstimateRisesWithAge | src/App.jsx:409-410 | across the 20-80 slider neither per-frequency curve decreases with age, for either sex and any frequency |
| Estimates.CompositeP95NonNegativeOnSlider | src/App.jsx:288-289 | across the 20-80 slider the unfloored PTA 95th percentile is never negative |
| Estimates.CompositeMedianRisesWithAge | src/App.jsx:288-289 | across the slider every PTA median except the female PTA-5123 one never decreases with age |
| Estimates.FemalePta5123MedianDips | src/App.jsx:104 | the female PTA-5123 median at age 21 is lower than at age 20 |
| Estimates.HighFrequencyP95TurnsDown | src/App.jsx:69 | past the slider the male 4000 Hz 95th percentile falls: it is lower at 100 than at 84 |
| Patient.PatientPTAs | src/App.jsx:273-283 | each patient PTA equals the mean (sum over count) of the entries at its frequency list, which is present if and only if every listed frequency is entered |
| Patient.PatientEntry.StoredReadings | src/App.jsx:274 | while the state is valid, reading any of the seven frequencies (`getVal`) yields exactly the stored field value, never the missing-key case |
| Patient.Pta5123DefinedIff | src/App.jsx:277-278 | PTA-5123 is present exactly when 500, 1000, 2000 and 3000 Hz are all entered, and four times it is their sum |
| Patient.Pta234DefinedIff | src/App.jsx:279-280 | PTA-234 is present exactly when 2000, 3000 and 4000 Hz are all entered, and three times it is their sum |
| Patient.MeanWithinEntries | src/App.jsx:277-280 | a present PTA lies within any bounds that hold all of its contributing entries, so between their minimum and maximum |
| Patient.PtaExamples | src/App.jsx:277-280 | entries 10, 20, 30, 40 give PTA-5123 25; entries 20, 30, 40 give PTA-234 30 |
| Patient.PtasIgnoreOtherFrequencies | src/App.jsx:269-283 | editing 6000 or 8000 Hz, or any frequency outside both lists, leaves both PTAs unchanged |
| Patient.EmptyEntriesHaveNoPtas | src/App.jsx:393 | with all fields empty, both PTAs are absent |
| Patient.PatientEntry.constructor | src/App.jsx:265-267 | the entry panel starts with all seven frequencies present and empty |
| Patient.PatientEntry.HandleInput | src/App.jsx:269-271 | the edited frequency takes the new value, every other frequency keeps its entry, and all seven fields still exist |
| Patient.PatientEntry.ClearInput | src/App.jsx:393 | after Clear Input the state is the seven empty fields, and every lookup is absent |
| Patient.PatientEntry.Ptas | src/App.jsx:273-283 | the PTAs shown for the current state are the means over the PTA-5123 and PTA-234 frequency lists |
| Audiogram.Points | src/App.jsx:165-172 | one point per frequency, in order, carrying that frequency's floored median and 95th percentile and the patient's entry |
| Audiogram.PointsNonNegative | src/App.jsx:167-170 | every median and 95th-percentile point of the seven-frequency chart is non-negative |
| Audiogram.EditChangesOnePoint | src/App.jsx:171 | after editing one frequency, only that frequency's point shows a different patient value |
| Audiogram.CellStatus | src/App.jsx:411-412 | a grid cell shows a band exactly when a value is entered, and then the band containing that value |

## Left out

- Rendering: the JSX markup, `MetricCard`, the SVG geometry and path strings (`xScale`, `yScale`, `medPath`, `p95Path`, `patientPath`), and the CSS class strings returned with each ASHA band. These are presentation only. The cards' band for a median or a patient PTA is the same `Asha.Status`.
- `parseFloat`, `parseInt`, `toFixed` and IEEE floating-point rounding. Values are exact reals and entries are already-parsed numbers. A non-numeric entry parsed to NaN would fall through every comparison to Profound in `getASHAStatus`; this is not modelled.
- Patient.Entry: a frequency with no key in the entry object would read as NaN in the source (`undefined !== ""`). The model reads it as absent. `PatientEntry.StoredReadings` shows that under `PatientEntry.Valid`, which every operation keeps, all seven keys are present, so the case never arises.
- React `useState`/`useMemo` machinery, memoisation and re-rendering. The sex and age selectors are plain parameters; the age slider's bounds 20 and 80 appear only as `MinAge`/`MaxAge` in the lemmas about the slider range.
- The Electron shell (`electron/main.cjs`) and the build configuration (`tailwind.config.js`): window lifecycle and static configuration, with no engine logic.
