# agrimind backend core, modelled in Dafny

The agrimind backend serves two machine-learning endpoints. `recommend_crop` suggests a crop
from soil and weather readings. `detect_disease` names the crop and the disease shown in a leaf
photo. Around the two opaque models there is a small amount of deterministic logic, and that
logic is what is modelled here:

- the class-label interpreter `parse_disease_class` and the confidence floor
  `is_valid_plant_image`;
- the class table: it inverts the loaded name→id map and falls back to `Unknown_<id>` on lookup;
- the text-generation fallback chain `query_huggingface`: three remote attempts with exponential
  backoff on rate limiting, then the local generator, then a fixed apology;
- translation routing `translate_text`;
- the order of the checks in both endpoints, and the answer each one assembles;
- in the simpler backend (`backend/simple_app.py`), the rule-based advice texts, built by
  appending fixed lines chosen by threshold tests.

The model outputs are inputs to the model. These are the predicted crop and class
probabilities, the predicted class id and its confidence, and whether the upload can be read
and decoded. The same goes for the outcome of every call to the generation service.

Modules:

- `Wrappers`: `Option` and `Result`.
- `PyStrings`: the Python string built-ins the code relies on. These are `str.replace`
  (non-overlapping, left to right), `split`, `strip` with Python's whitespace set, `lower`
  (ASCII), the substring test `in`, `str(int)` and `max`.
- `Requests`: the request, upload, inference and loaded-model types shared by both backends, and
  the `image/` content-type test.
- `ClassTable`: the inversion `{v: k for k, v in class_indices.items()}` and the lookup
  `.get(id, f"Unknown_{id}")`.
- `DiseaseLabels`: `parse_disease_class` and `is_valid_plant_image` of `backend/app.py`.
- `Generation`: `query_huggingface` as a method with the source's loop, proved equal to a
  specification function; also `translate_text`.
- `AppEndpoints`: the two endpoints of `backend/app.py`.
- `SimpleApp`: `backend/simple_app.py`, meaning its advice composers, its own copy of the parser
  and its two endpoints.

Where the code and its documentation disagree, the model follows the code:

- The docstring of `parse_disease_class` lists `Crop_Disease` as a format. A single-underscore
  label never produces a `|`, so it takes the `Unknown` fallback branch
  (`DiseaseLabels.SingleSeparatorFallsBack`, `DiseaseLabels.TomatoHealthySingleUnderscore`).
- `translate_text` is documented to fall back to the original text. `query_huggingface` never
  raises, so that fallback is dead code. A translation whose generation fails returns the
  apology instead (`Generation.FailedTranslationIsApology`).
- Any language code other than `en` and `te` is translated to Hindi. Unknown codes are not
  passed through.
- Generated text that only echoes the prompt becomes empty advice
  (`Generation.EchoOnlyGivesEmpty`).
- `backend/app.py` does not refuse a request when the class table is empty. `backend/simple_app.py`
  does (`SimpleApp.EmptyTableRefused`).

## Model

| member | source | states |
|---|---|---|
| PyStrings.Split | backend/app.py:198 | splitting at the bar character: one more part than separators, no part holds the separator, and joining the parts with it gives the input back |
| PyStrings.Strip | backend/app.py:201-202 | `strip()` returns the slice of the input left after dropping whitespace only, at both ends; the slice has non-space ends, and an input with non-space ends comes back unchanged |
| PyStrings.Lower | backend/app.py:203 | `lower()` keeps the length and lowers each ASCII capital, character by character |
| PyStrings.NatToString | backend/app.py:327 | `str(id)` is a non-empty run of decimal digits without a leading zero whose value is `id` |
| PyStrings.Max | backend/simple_app.py:151-152 | `max(probabilities)` is one of the probabilities and no probability exceeds it |
| PyStrings.SplitJoin | backend/app.py:198 | joining the parts of a split with the separator restores the text |
| PyStrings.ReplaceCharByChar | backend/app.py:198 | `replace('_', ' ')` keeps the length and changes exactly the underscores |
| PyStrings.ReplaceAbsent | backend/app.py:198 | `Replace`, the model of `str.replace`, leaves a text that does not contain the pattern unchanged |
| PyStrings.ReplaceAtFront | backend/app.py:198 | `Replace` rewrites an occurrence of the pattern at the front and goes on after it, so occurrences never overlap |
| PyStrings.ReplaceSkipPrefix | backend/app.py:198 | `Replace` copies a prefix that lacks the pattern's first character and replaces in the rest |
| PyStrings.ReplaceKeepsChar | backend/app.py:198 | a character outside the pattern is in the result of `Replace` iff it was in the text, or it is in the replacement and the pattern occurs |
| PyStrings.ContainsChars | backend/app.py:203 | `Contains`, the model of Python's substring test `in`: every character of a contained string occurs in the containing one |
| PyStrings.ContainsPrefixOfPattern | backend/app.py:198 | `Contains` holds for every prefix of a contained string, so a text containing `___` contains `__` |
| Requests.ContentTypeIff | backend/app.py:293 | a content type is accepted iff it is present and begins with `image/` |
| ClassTable.Invert | backend/app.py:88 | the inverted table's keys are exactly the ids listed in the loaded map |
| ClassTable.LastListingWins | backend/app.py:88 | in the inverted table an id names the class listed last with it |
| ClassTable.RoundTrip | backend/app.py:88 | when ids are distinct, every listed class is found again under its own id in the table `ClassLabel` reads |
| ClassTable.AbsentIdLabel | backend/app.py:327 | `ClassLabel`, the model of `.get(id, f"Unknown_{id}")`, gives an id missing from the table `Unknown_` followed by a non-empty run of decimal digits whose value is the id and which has no leading zero (a lone `0` for id 0); the lookup never fails |
| DiseaseLabels.ParseDiseaseClass | backend/app.py:191-218 | `full_name` is the input, a healthy result names the disease `Healthy`, and fewer than two segments give crop `Unknown` with the raw label as disease |
| DiseaseLabels.MarkerIffSeparator | backend/app.py:198 | after the three replacements of `Normalize` the label holds a bar character iff it had a bar character or a double underscore |
| DiseaseLabels.SegmentedIff | backend/app.py:198-200 | `Segments`, the normalized label split at bars, has two or more entries iff the label holds a bar character or a double underscore |
| DiseaseLabels.FallbackWithoutSeparator | backend/app.py:198-218 | a label with no bar character and no double underscore gives crop `Unknown`, the unreplaced label as disease, not healthy |
| DiseaseLabels.SegmentsHaveNoUnderscore | backend/app.py:198 | no entry of `Segments` holds an underscore |
| DiseaseLabels.SegmentedFields | backend/app.py:198-209 | for a split label, crop is the first segment stripped; the flag says whether the stripped second segment mentions "healthy"; otherwise that segment is the disease; neither field holds `_` |
| DiseaseLabels.HealthyIff | backend/app.py:198-209 | healthy iff the label was split and its second segment satisfies `MentionsHealthy` (`'healthy' in disease.lower()`), iff the disease is `Healthy` after a split |
| DiseaseLabels.TripleSeparatorForm | backend/app.py:198 | `crop___disease` splits into the crop and the disease with underscores turned into spaces |
| DiseaseLabels.DoubleSeparatorForm | backend/app.py:198 | `crop__disease` splits the same way as the triple form |
| DiseaseLabels.SingleSeparatorFallsBack | backend/app.py:194-218 | `crop_disease`, a documented format, takes the `Unknown` fallback branch |
| DiseaseLabels.UnknownIdLabelFallsBack | backend/app.py:327-328 | the label `Unknown_<id>` for a missing id parses to crop `Unknown`, the label as disease, not healthy |
| DiseaseLabels.TripleSeparatorParse | backend/app.py:191-209 | parsing `crop___disease` gives the crop as written and the disease with spaces (or `Healthy`), with the flag set iff that name mentions "healthy" |
| DiseaseLabels.OneWordParse | backend/app.py:191-209 | `crop___word` gives the crop and the word as disease (or `Healthy`), healthy iff the word mentions "healthy" |
| DiseaseLabels.TwoWordParse | backend/app.py:191-209 | `crop___first_second` gives the crop and `first second` as disease (or `Healthy`), healthy iff that name mentions "healthy" |
| DiseaseLabels.VarietyParse | backend/app.py:191-209 | `crop__variety___first_second` reports the variety where the disease belongs; the disease is lost |
| DiseaseLabels.TomatoLateBlight | backend/app.py:194-195 | the documented example: `Tomato___Late_blight` gives `Tomato`, `Late blight`, not healthy |
| DiseaseLabels.PotatoHealthy | backend/app.py:198-209 | `Potato___healthy` gives `Potato`, `Healthy`, healthy |
| DiseaseLabels.PepperBellBacterialSpot | backend/app.py:198-202 | `Pepper__bell___Bacterial_spot` gives crop `Pepper` and disease `bell`: later segments are ignored |
| DiseaseLabels.ExtraSegmentIgnored | backend/app.py:198 | `crop__variety___disease` splits into three segments, the variety taking the disease's place |
| DiseaseLabels.TomatoHealthySingleUnderscore | backend/app.py:194-218 | `Tomato_healthy` is not recognised as healthy: it falls back to `Unknown` |
| DiseaseLabels.NoSeparatorLabel | backend/app.py:211-218 | `XYZ` gives crop `Unknown`, disease `XYZ`, not healthy |
| DiseaseLabels.FloorIsInclusive | backend/app.py:220-225 | `IsValidPlantImage` with the floor 0.3 passes a confidence iff it is at least 0.3; exactly 0.3 passes |
| Generation.Backoff | backend/app.py:136 | the wait after a rate-limited attempt is at least one second |
| Generation.BackoffValues | backend/app.py:136 | the waits after the three attempts are 1, 2 and 4 seconds |
| Generation.RemoteFrom | backend/app.py:115-149 | at most the remaining attempts are made and at least one when any remain; each wait follows an attempt |
| Generation.QueryHuggingface | backend/app.py:109-173 | the text is `Query`: the remote reply when the loop produced one, else the local generator's cleaned text, else the apology; the attempts and waits are the loop's |
| Generation.RemoteAttempts | backend/app.py:115-149 | the loop returns the reply, the number of requests and the waits of the remote phase as specified attempt by attempt |
| Generation.RateLimitDelays | backend/app.py:134-136 | there is at most one wait per attempt in the range |
| Generation.DelaysAreRateLimitBackoffs | backend/app.py:134-137 | the waits are exactly `2**attempt` for the rate-limited attempts, in order |
| Generation.FirstDecisiveAttempt | backend/app.py:128-149 | the first attempt that is neither rate-limited nor timed out ends the remote phase |
| Generation.FirstSuccessWins | backend/app.py:128-132 | when the first decisive attempt is a 200, the answer is its text with the prompt removed and stripped |
| Generation.HardFailureAbandonsRemote | backend/app.py:138-173 | another status or exception abandons the remaining attempts and falls to the local generator or the apology |
| Generation.RateLimitedThrice | backend/app.py:115-137 | three rate limits make three attempts with waits 1, 2 and 4, then fall back |
| Generation.QueryOutcomes | backend/app.py:109-173 | the answer `Query` gives is a cleaned remote text, a cleaned local text or the apology; it is the apology when nothing generates |
| Generation.SuccessfulAttempt | backend/app.py:128-132 | a remote reply comes from a successful attempt, and is that attempt's text cleaned |
| Generation.EchoRemoved | backend/app.py:131 | text that echoes the prompt then continues yields the continuation stripped |
| Generation.EchoOnlyGivesEmpty | backend/app.py:128-132 | a first reply that only echoes the prompt gives empty text, not a fallback |
| Generation.Translate | backend/app.py:175-189 | the translation returns the specified text |
| Generation.TranslationRouting | backend/app.py:179-186 | `TranslateText`, the model of `translate_text`: `en` passes through; `te` asks for Telugu; every other code asks for Hindi |
| Generation.FailedTranslationIsApology | backend/app.py:166-189 | when generation fails, a translation yields the apology, not the original text |
| AppEndpoints.RecommendCrop | backend/app.py:227-280 | 503 without a model, 500 when prediction fails, else the advice for the predicted crop, both translated unless English |
| AppEndpoints.EnglishCropAnswer | backend/app.py:250-255 | an English request gets the crop and generated advice untranslated |
| AppEndpoints.DetectionRejection | backend/app.py:288-395 | a refusal is a 400, 500 or 503 |
| AppEndpoints.DetectDisease | backend/app.py:282-395 | refused with the first failing check, else the parsed class with generated, translated advice |
| AppEndpoints.ContentTypeCheckedFirst | backend/app.py:293-300 | a non-image content type is refused with 400 whatever the body and the prediction |
| AppEndpoints.MissingModelFirst | backend/app.py:288-289 | without the disease model every request is refused with 503 |
| AppEndpoints.ConfidenceDecides | backend/app.py:319-324 | a decodable image is refused iff its confidence is below 0.3; exactly 0.3 is accepted |
| AppEndpoints.UnknownClassReport | backend/app.py:327-333 | for an English request, a class id missing from the table reports crop `Unknown`, disease `Unknown_<id>`, not healthy |
| AppEndpoints.HealthyReport | backend/app.py:336-362 | a healthy report names the disease `Healthy` (translated) and uses the healthy-plant prompt |
| SimpleApp.ConcatAppend | backend/simple_app.py:25-59 | the text of two runs of appended pieces is the first text followed by the second |
| SimpleApp.AppendBand | backend/simple_app.py:31-34 | one band test appends the low line, the high line or nothing |
| SimpleApp.GenerateCropAdvice | backend/simple_app.py:25-59 | the advice is the header, the soil lines in N, P, K, pH order and the care block, in that order |
| SimpleApp.CropAdviceStartsWithHeader | backend/simple_app.py:28 | the advice begins with the header naming the crop |
| SimpleApp.SoilLinesIff | backend/simple_app.py:31-50 | each nutrient or pH line is present iff its threshold test holds |
| SimpleApp.AtMostOneLinePerNutrient | backend/simple_app.py:31-50 | never both lines of one nutrient, never both acidic and alkaline, at most four soil lines |
| SimpleApp.AdviceIgnoresWeather | backend/simple_app.py:25-59 | temperature, humidity, rainfall, user and language never change the advice |
| SimpleApp.DiseaseAdvice | backend/simple_app.py:231-247 | the advice is the opening and the maintenance tips when healthy, else the warning, treatment steps and referral |
| SimpleApp.DiseaseAdviceShape | backend/simple_app.py:231-247 | healthy advice opens with the check-mark line; other advice opens with the warning and ends with the referral |
| SimpleApp.ParseDiseaseClass | backend/simple_app.py:105-124 | a healthy result names the disease `Healthy` |
| SimpleApp.ParsersAgree | backend/simple_app.py:105-124 | both copies of the parser give the same crop, disease and flag for every label |
| SimpleApp.RecommendCrop | backend/simple_app.py:130-168 | the answer fails, with the fixed detail, iff no model, a failed prediction or no probabilities; otherwise it has the crop, the largest probability and the rule-based advice |
| SimpleApp.DetectionRejection | backend/simple_app.py:175-267 | a refusal is a 400, 500 or 503 |
| SimpleApp.DetectDisease | backend/simple_app.py:170-267 | refused with the first failing check, else the parsed class with rule-based advice |
| SimpleApp.EmptyTableRefused | backend/simple_app.py:175-179 | an empty class table refuses every request with 503 |
| SimpleApp.ContentTypeCheckedFirst | backend/simple_app.py:181-188 | a non-image content type is refused with 400 whatever the body and the prediction |
| SimpleApp.ReportAdviceMatches | backend/simple_app.py:221-247 | an accepted report's advice matches its diagnosis: healthy opening, or warning and referral |

## Left out

- Image decoding, RGB conversion, resizing and scaling. These are library calls and
  floating-point tensor work. The model takes "unreadable", "undecodable" or "decodes" as its
  input.
- The TensorFlow and scikit-learn models (`predict`, `predict_proba`, `argmax`). These are
  foreign code. Their outputs are inputs: a predicted crop with optional probabilities, or a
  class id with its confidence, or the exception they raise.
- The HTTP calls to the generation service, the local `transformers` pipeline and `time.sleep`.
  These are I/O. Each call of `query_huggingface` meets a given environment: the outcome of each
  of the three remote attempts, and the local generator's outcome. The waits are returned as
  values, not slept.
- Firebase persistence. Its errors are caught and logged and never change an answer.
- The wording of the generation prompts. The prompts are opaque functions of what they are
  built from: crop and request, crop, or disease and crop.
- The `/chat` endpoint, routing, CORS, logging and the module-level model loading. The loading
  outcome is the `LoadedModels` input.
- Python's `float`. Readings and confidences are `real`, so NaN and rounding are not modelled.
- `PyStrings.Lower`: only ASCII letters are lowered. This is exact for the `"healthy"` test,
  since no non-ASCII character lowers to one of its letters.
- `Generation.QueryHuggingface`: the outer `except` around the whole function is not modelled,
  because nothing inside can raise once the service calls are inputs.
- `DiseaseLabels.ParseDiseaseClass`: its own contract states only what holds for every label.
  The segment-by-segment result is stated by `SegmentedFields`, `HealthyIff`,
  `FallbackWithoutSeparator` and the example lemmas.
- The translation exception handler in `translate_text` is unreachable, because
  `query_huggingface` catches everything. It is not modelled.
