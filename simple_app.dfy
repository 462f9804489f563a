/**
 backend/simple_app.py, the variant of the backend without the generation service: its own
 copy of the class-label interpreter, rule-based advice texts built by appending fixed pieces
 under threshold tests, and its two endpoints.
 */
module SimpleApp {
  import opened Wrappers
  import opened PyStrings
  import opened Requests
  import opened ClassTable
  import DiseaseLabels

  // ---------------------------------------------------------------------------
  // Text assembled piece by piece
  // ---------------------------------------------------------------------------

  /** The text that a run of `advice += piece` statements leaves, the first piece being the
      initial value. */
  function Concat(pieces: seq<string>): string {
    if pieces == [] then [] else Concat(pieces[..|pieces| - 1]) + pieces[|pieces| - 1]
  }

  /** Appending one more piece appends its text. */
  lemma ConcatSnoc(pieces: seq<string>, piece: string)
    ensures Concat(pieces + [piece]) == Concat(pieces) + piece
  {
    assert (pieces + [piece])[..|pieces|] == pieces;
  }

  /** The text of two runs of pieces is the text of the first followed by that of the second. */
  lemma {:induction false} ConcatAppend(front: seq<string>, back: seq<string>)
    ensures Concat(front + back) == Concat(front) + Concat(back)
    decreases |back|
  {
    if back == [] {
      assert front + back == front;
    } else {
      var init, last := back[..|back| - 1], back[|back| - 1];
      assert front + back == (front + init) + [last];
      ConcatSnoc(front + init, last);
      ConcatAppend(front, init);
      ConcatSnoc(init, last);
      assert back == init + [last];
    }
  }

  // ---------------------------------------------------------------------------
  // generate_crop_advice
  // ---------------------------------------------------------------------------

  function CropHeader(crop: string): string {
    "Based on your soil parameters, " + crop + " is recommended.\n\n"
  }

  const NitrogenLow: string := "- Nitrogen (N) is low. Consider adding nitrogen-rich fertilizers.\n"
  const NitrogenHigh: string := "- Nitrogen (N) is high. Reduce nitrogen fertilization.\n"
  const PhosphorusLow: string := "- Phosphorus (P) is low. Add phosphate fertilizers.\n"
  const PhosphorusHigh: string := "- Phosphorus (P) is high. Reduce phosphate application.\n"
  const PotassiumLow: string := "- Potassium (K) is low. Add potash fertilizers.\n"
  const PotassiumHigh: string := "- Potassium (K) is high. Reduce potassium application.\n"
  const Acidic: string := "- Soil is acidic. Consider adding lime to raise pH.\n"
  const Alkaline: string := "- Soil is alkaline. Consider adding sulfur to lower pH.\n"

  const PrepareSoil: string := "1. Prepare the soil well before planting\n"
  const KeepSpacing: string := "2. Maintain proper spacing between plants\n"
  const WatchPests: string := "3. Monitor for pests and diseases regularly\n"

  function CareOpening(crop: string): string {
    "\nGeneral care for " + crop + ":\n"
  }

  function CareClosing(crop: string): string {
    "4. Maintain soil moisture appropriate for " + crop + "\n"
  }

  /** The four-line general-care block that closes the advice. */
  function CareBlock(crop: string): seq<string> {
    [CareOpening(crop), PrepareSoil, KeepSpacing, WatchPests, CareClosing(crop)]
  }

  /** `if value < low: advice += lowLine elif value > high: advice += highLine` as the pieces
      it adds. */
  function Band(value: real, low: real, high: real, lowLine: string, highLine: string): seq<string> {
    if value < low then [lowLine] else if value > high then [highLine] else []
  }

  /** The nutrient and pH lines, in the order the source tests them. */
  function SoilLines(data: CropData): seq<string> {
    Band(data.n, 50.0, 100.0, NitrogenLow, NitrogenHigh)
      + Band(data.p, 30.0, 100.0, PhosphorusLow, PhosphorusHigh)
      + Band(data.k, 30.0, 100.0, PotassiumLow, PotassiumHigh)
      + Band(data.ph, 6.0, 8.0, Acidic, Alkaline)
  }

  /** Every piece of the crop advice in order: header, soil lines, general care. */
  function CropAdvicePieces(crop: string, data: CropData): seq<string> {
    [CropHeader(crop)] + SoilLines(data) + CareBlock(crop)
  }

  /** `generate_crop_advice(crop, data)` */
  method GenerateCropAdvice(crop: string, data: CropData) returns (advice: string)
    ensures advice == Concat(CropAdvicePieces(crop, data))
  {
    // `pieces` lists what has been appended so far, `soil` the soil lines among them.
    ghost var pieces, soil := [], [];
    advice, pieces := Append([], [], CropHeader(crop));
    assert pieces == [CropHeader(crop)] + soil;

    advice, pieces := AppendBand(advice, pieces, data.n, 50.0, 100.0, NitrogenLow, NitrogenHigh);
    Associate([CropHeader(crop)], soil, Band(data.n, 50.0, 100.0, NitrogenLow, NitrogenHigh));
    soil := soil + Band(data.n, 50.0, 100.0, NitrogenLow, NitrogenHigh);
    advice, pieces := AppendBand(advice, pieces, data.p, 30.0, 100.0, PhosphorusLow, PhosphorusHigh);
    Associate([CropHeader(crop)], soil, Band(data.p, 30.0, 100.0, PhosphorusLow, PhosphorusHigh));
    soil := soil + Band(data.p, 30.0, 100.0, PhosphorusLow, PhosphorusHigh);
    advice, pieces := AppendBand(advice, pieces, data.k, 30.0, 100.0, PotassiumLow, PotassiumHigh);
    Associate([CropHeader(crop)], soil, Band(data.k, 30.0, 100.0, PotassiumLow, PotassiumHigh));
    soil := soil + Band(data.k, 30.0, 100.0, PotassiumLow, PotassiumHigh);
    advice, pieces := AppendBand(advice, pieces, data.ph, 6.0, 8.0, Acidic, Alkaline);
    Associate([CropHeader(crop)], soil, Band(data.ph, 6.0, 8.0, Acidic, Alkaline));
    soil := soil + Band(data.ph, 6.0, 8.0, Acidic, Alkaline);
    assert soil == SoilLines(data);
    ghost var soilEnd := pieces;
    assert soilEnd == [CropHeader(crop)] + SoilLines(data);

    advice, pieces := Append(advice, pieces, CareOpening(crop));
    advice, pieces := Append(advice, pieces, PrepareSoil);
    advice, pieces := Append(advice, pieces, KeepSpacing);
    advice, pieces := Append(advice, pieces, WatchPests);
    advice, pieces := Append(advice, pieces, CareClosing(crop));
    FiveMore(soilEnd, CareOpening(crop), PrepareSoil, KeepSpacing, WatchPests, CareClosing(crop));
    assert pieces == soilEnd + CareBlock(crop);
    assert pieces == CropAdvicePieces(crop, data);
  }

  /** Five single appends add the five pieces as one block. */
  lemma FiveMore(front: seq<string>, a: string, b: string, c: string, d: string, e: string)
    ensures front + [a] + [b] + [c] + [d] + [e] == front + [a, b, c, d, e]
  {
  }

  lemma Associate(a: seq<string>, b: seq<string>, c: seq<string>)
    ensures (a + b) + c == a + (b + c)
  {
  }

  /** One `advice += piece`, recorded in the ghost list of pieces appended so far. */
  method Append(advice: string, ghost pieces: seq<string>, piece: string)
    returns (advice': string, ghost pieces': seq<string>)
    requires advice == Concat(pieces)
    ensures advice' == advice + piece && pieces' == pieces + [piece] && advice' == Concat(pieces')
  {
    advice' := advice + piece;
    pieces' := pieces + [piece];
    ConcatSnoc(pieces, piece);
  }

  /** `if value < low: advice += lowLine elif value > high: advice += highLine` */
  method AppendBand(advice: string, ghost pieces: seq<string>,
                    value: real, low: real, high: real, lowLine: string, highLine: string)
    returns (advice': string, ghost pieces': seq<string>)
    requires advice == Concat(pieces)
    ensures advice' == Concat(pieces') && pieces' == pieces + Band(value, low, high, lowLine, highLine)
  {
    if value < low {
      advice', pieces' := Append(advice, pieces, lowLine);
    } else if value > high {
      advice', pieces' := Append(advice, pieces, highLine);
    } else {
      advice', pieces' := advice, pieces;
      assert pieces + [] == pieces;
    }
  }

  /** The crop advice always opens with the recommendation header naming the crop. */
  lemma CropAdviceStartsWithHeader(crop: string, data: CropData)
    ensures StartsWith(Concat(CropAdvicePieces(crop, data)), CropHeader(crop))
  {
    var rest := SoilLines(data) + CareBlock(crop);
    assert CropAdvicePieces(crop, data) == [CropHeader(crop)] + rest;
    ConcatAppend([CropHeader(crop)], rest);
    assert Concat([CropHeader(crop)]) == CropHeader(crop) by {
      assert [CropHeader(crop)][..0] == [];
    }
  }

  /** Each soil line appears exactly when its condition holds: low below the band, high above
      it, nothing inside it. */
  lemma SoilLinesIff(data: CropData)
    ensures NitrogenLow in SoilLines(data) <==> data.n < 50.0
    ensures NitrogenHigh in SoilLines(data) <==> data.n > 100.0
    ensures PhosphorusLow in SoilLines(data) <==> data.p < 30.0
    ensures PhosphorusHigh in SoilLines(data) <==> data.p > 100.0
    ensures PotassiumLow in SoilLines(data) <==> data.k < 30.0
    ensures PotassiumHigh in SoilLines(data) <==> data.k > 100.0
    ensures Acidic in SoilLines(data) <==> data.ph < 6.0
    ensures Alkaline in SoilLines(data) <==> data.ph > 8.0
  {
    SoilLinesDistinct();
  }

  /** The eight soil lines are different texts. */
  lemma SoilLinesDistinct()
    ensures NitrogenLow !in [NitrogenHigh, PhosphorusLow, PhosphorusHigh, PotassiumLow, PotassiumHigh, Acidic, Alkaline]
    ensures NitrogenHigh !in [PhosphorusLow, PhosphorusHigh, PotassiumLow, PotassiumHigh, Acidic, Alkaline]
    ensures PhosphorusLow !in [PhosphorusHigh, PotassiumLow, PotassiumHigh, Acidic, Alkaline]
    ensures PhosphorusHigh !in [PotassiumLow, PotassiumHigh, Acidic, Alkaline]
    ensures PotassiumLow !in [PotassiumHigh, Acidic, Alkaline]
    ensures PotassiumHigh !in [Acidic, Alkaline]
    ensures Acidic != Alkaline
  {
  }

  /** At most one line per nutrient, and never both the acidic and the alkaline line. */
  lemma AtMostOneLinePerNutrient(data: CropData)
    ensures !(NitrogenLow in SoilLines(data) && NitrogenHigh in SoilLines(data))
    ensures !(PhosphorusLow in SoilLines(data) && PhosphorusHigh in SoilLines(data))
    ensures !(PotassiumLow in SoilLines(data) && PotassiumHigh in SoilLines(data))
    ensures !(Acidic in SoilLines(data) && Alkaline in SoilLines(data))
    ensures |SoilLines(data)| <= 4
  {
    SoilLinesIff(data);
  }

  /** Temperature, humidity, rainfall, the user and the language never change the advice. */
  lemma AdviceIgnoresWeather(crop: string, data1: CropData, data2: CropData)
    requires data1.n == data2.n && data1.p == data2.p && data1.k == data2.k && data1.ph == data2.ph
    ensures Concat(CropAdvicePieces(crop, data1)) == Concat(CropAdvicePieces(crop, data2))
  {
    assert SoilLines(data1) == SoilLines(data2);
  }

  // ---------------------------------------------------------------------------
  // The advice of detect_disease
  // ---------------------------------------------------------------------------

  function HealthyOpening(crop: string): string {
    "\U{2705} Your " + crop + " plant appears healthy!\n\n"
  }

  function WarningOpening(disease: string, crop: string): string {
    "\U{26A0}\U{FE0F} " + disease + " detected in " + crop + "\n\n"
  }

  const ConsultExpert: string := "Consult a local agricultural expert for specific treatment options."

  const MaintenanceTips: seq<string> := [
    "Maintenance tips:\n",
    "1. Continue regular watering schedule\n",
    "2. Ensure adequate sunlight (6-8 hours daily)\n",
    "3. Monitor for early signs of pests or disease\n",
    "4. Maintain good air circulation\n",
    "5. Apply balanced fertilizer as needed"]

  const TreatmentSteps: seq<string> := [
    "Treatment recommendations:\n",
    "1. Remove and destroy affected leaves\n",
    "2. Apply appropriate fungicide or treatment\n",
    "3. Improve air circulation around plants\n",
    "4. Avoid overhead watering\n",
    "5. Monitor other plants for spread\n\n"]

  /** The pieces of the advice for a diagnosis: the healthy opening and maintenance tips, or the
      warning, the treatment steps and the closing referral to an expert. */
  function DiseaseAdvicePieces(crop: string, disease: string, isHealthy: bool): seq<string> {
    if isHealthy then [HealthyOpening(crop)] + MaintenanceTips
    else [WarningOpening(disease, crop)] + TreatmentSteps + [ConsultExpert]
  }

  /** The advice built in `detect_disease`, appended piece by piece. */
  method DiseaseAdvice(crop: string, disease: string, isHealthy: bool) returns (advice: string)
    ensures advice == Concat(DiseaseAdvicePieces(crop, disease, isHealthy))
  {
    ghost var pieces: seq<string>;
    if isHealthy {
      var opening := HealthyOpening(crop);
      advice, pieces := Append([], [], opening);
      advice, pieces := Append(advice, pieces, "Maintenance tips:\n");
      advice, pieces := Append(advice, pieces, "1. Continue regular watering schedule\n");
      advice, pieces := Append(advice, pieces, "2. Ensure adequate sunlight (6-8 hours daily)\n");
      advice, pieces := Append(advice, pieces, "3. Monitor for early signs of pests or disease\n");
      advice, pieces := Append(advice, pieces, "4. Maintain good air circulation\n");
      advice, pieces := Append(advice, pieces, "5. Apply balanced fertilizer as needed");
      SixMore([opening], MaintenanceTips);
    } else {
      var opening := WarningOpening(disease, crop);
      advice, pieces := Append([], [], opening);
      advice, pieces := Append(advice, pieces, "Treatment recommendations:\n");
      advice, pieces := Append(advice, pieces, "1. Remove and destroy affected leaves\n");
      advice, pieces := Append(advice, pieces, "2. Apply appropriate fungicide or treatment\n");
      advice, pieces := Append(advice, pieces, "3. Improve air circulation around plants\n");
      advice, pieces := Append(advice, pieces, "4. Avoid overhead watering\n");
      advice, pieces := Append(advice, pieces, "5. Monitor other plants for spread\n\n");
      SixMore([opening], TreatmentSteps);
      advice, pieces := Append(advice, pieces, ConsultExpert);
    }
  }

  /** Six single appends add a block of six pieces. */
  lemma SixMore(front: seq<string>, block: seq<string>)
    requires |block| == 6
    ensures front + [block[0]] + [block[1]] + [block[2]] + [block[3]] + [block[4]] + [block[5]]
         == front + block
  {
  }

  /** Healthy advice opens with the check mark line naming the crop; other advice opens with the
      warning naming disease and crop and closes with the referral to an expert. */
  lemma DiseaseAdviceShape(crop: string, disease: string, isHealthy: bool)
    ensures var advice := Concat(DiseaseAdvicePieces(crop, disease, isHealthy));
      && (isHealthy ==> StartsWith(advice, HealthyOpening(crop)))
      && (!isHealthy ==> StartsWith(advice, WarningOpening(disease, crop))
                         && EndsWith(advice, ConsultExpert))
  {
    var opening := if isHealthy then HealthyOpening(crop) else WarningOpening(disease, crop);
    var rest := DiseaseAdvicePieces(crop, disease, isHealthy)[1..];
    assert DiseaseAdvicePieces(crop, disease, isHealthy) == [opening] + rest;
    ConcatAppend([opening], rest);
    assert Concat([opening]) == opening by { assert [opening][..0] == []; }
    if !isHealthy {
      var body := [WarningOpening(disease, crop)] + TreatmentSteps;
      ConcatSnoc(body, ConsultExpert);
      assert DiseaseAdvicePieces(crop, disease, isHealthy) == body + [ConsultExpert];
    }
  }

  // ---------------------------------------------------------------------------
  // parse_disease_class and is_valid_plant_image
  // ---------------------------------------------------------------------------

  /** The dictionary of simple_app's `parse_disease_class`, which has no `full_name`. */
  datatype Diagnosis = Diagnosis(crop: string, disease: string, isHealthy: bool)

  /** simple_app's own copy of `parse_disease_class`. */
  function ParseDiseaseClass(className: string): (d: Diagnosis)
    ensures d.isHealthy ==> d.disease == DiseaseLabels.HealthyName
  {
    var parts := DiseaseLabels.Segments(className);
    if |parts| >= 2 then
      var crop := Strip(parts[0]);
      var disease := Strip(parts[1]);
      var isHealthy := DiseaseLabels.MentionsHealthy(disease);
      Diagnosis(crop, if !isHealthy then disease else DiseaseLabels.HealthyName, isHealthy)
    else
      Diagnosis(DiseaseLabels.UnknownCrop, className, false)
  }

  /** The two copies agree on crop, disease and health flag for every label. */
  lemma ParsersAgree(className: string)
    ensures var full := DiseaseLabels.ParseDiseaseClass(className);
      ParseDiseaseClass(className) == Diagnosis(full.crop, full.disease, full.isHealthy)
  {
  }

  // ---------------------------------------------------------------------------
  // recommend_crop
  // ---------------------------------------------------------------------------

  /** The response of simple_app's `recommend_crop`: `success` true with crop, confidence and
      advice, or `success` false with a fixed detail. */
  datatype CropResponse =
    | CropOk(recommendedCrop: string, confidence: real, advice: string)
    | CropFailed(detail: string)

  const CropFailure: string := "Unable to process crop recommendation. Please try again later."

  /** `recommend_crop`: every failure, a missing model included, is an answer with `success`
      false rather than an HTTP error; on success the confidence is the largest class
      probability. */
  method RecommendCrop(data: CropData, models: LoadedModels, inference: CropInference)
    returns (r: CropResponse)
    ensures r.CropFailed? <==> !models.cropModel || inference.PredictionFails?
                               || inference.probabilities.None? || inference.probabilities.value == []
    ensures r.CropFailed? ==> r.detail == CropFailure
    ensures r.CropOk? ==>
      && r.recommendedCrop == inference.crop
      && r.confidence in inference.probabilities.value
      && (forall q :: q in inference.probabilities.value ==> q <= r.confidence)
      && r.advice == Concat(CropAdvicePieces(inference.crop, data))
  {
    if !models.cropModel {
      return CropFailed(CropFailure);
    }
    if inference.PredictionFails? || inference.probabilities.None? {
      return CropFailed(CropFailure);
    }
    var probabilities := inference.probabilities.value;
    if probabilities == [] {
      return CropFailed(CropFailure);   // `max` of an empty sequence raises
    }
    var confidence := Max(probabilities);
    var advice := GenerateCropAdvice(inference.crop, data);
    return CropOk(inference.crop, confidence, advice);
  }

  // ---------------------------------------------------------------------------
  // detect_disease
  // ---------------------------------------------------------------------------

  const DiseaseModelMissing: string :=
    "Disease detection model not available. Please wait for model training to complete or contact support."
  const InvalidFileType: string := "Invalid file type. Please upload an image file."
  const InvalidImage: string := "Invalid image file. Please upload a valid image."
  const NotAPlant: string := "Invalid plant image. Please upload a clear image of Tomato, Potato, or Pepper leaf."
  const DetectionFailedPrefix: string := "Unable to process disease detection: "

  datatype DiseaseReport =
    DiseaseReport(crop: string, disease: string, isHealthy: bool, confidence: real, advice: string)

  /** The first check of simple_app's `detect_disease` that fails; `None` when all pass. An
      unexpected exception becomes a 500 whose detail carries the exception's message. */
  function DetectionRejection(models: LoadedModels, upload: Upload, inference: ImageInference): (e: Option<HttpError>)
    ensures e.Some? ==> e.value.status in {400, 500, 503}
  {
    if !models.diseaseModel || models.classNames == map[] then Some(HttpError(503, DiseaseModelMissing))
    else if !IsImageContentType(upload.contentType) then Some(HttpError(400, InvalidFileType))
    else if upload.body.Unreadable? then Some(HttpError(500, DetectionFailedPrefix + upload.body.message))
    else if upload.body.Undecodable? then Some(HttpError(400, InvalidImage))
    else if inference.InferenceFails? then Some(HttpError(500, DetectionFailedPrefix + inference.message))
    else if !DiseaseLabels.IsValidPlantImage(inference.confidence, DiseaseLabels.ConfidenceFloor)
      then Some(HttpError(400, NotAPlant))
    else None
  }

  /** The report for an accepted prediction. */
  function DiseaseAnswer(table: map<int, string>, classId: nat, confidence: real): DiseaseReport {
    var d := ParseDiseaseClass(ClassLabel(table, classId));
    DiseaseReport(d.crop, d.disease, d.isHealthy, confidence,
                  Concat(DiseaseAdvicePieces(d.crop, d.disease, d.isHealthy)))
  }

  /** simple_app's `detect_disease`, step by step. */
  method DetectDisease(upload: Upload, models: LoadedModels, inference: ImageInference)
    returns (r: Result<DiseaseReport, HttpError>)
    ensures var e := DetectionRejection(models, upload, inference);
      && (e.Some? ==> r == Failure(e.value))
      && (e.None? ==> r == Success(DiseaseAnswer(models.classNames, inference.classId, inference.confidence)))
  {
    if !models.diseaseModel || models.classNames == map[] {
      return Failure(HttpError(503, DiseaseModelMissing));
    }
    if !IsImageContentType(upload.contentType) {
      return Failure(HttpError(400, InvalidFileType));
    }
    if upload.body.Unreadable? {
      return Failure(HttpError(500, DetectionFailedPrefix + upload.body.message));
    }
    if upload.body.Undecodable? {
      return Failure(HttpError(400, InvalidImage));
    }
    if inference.InferenceFails? {
      return Failure(HttpError(500, DetectionFailedPrefix + inference.message));
    }
    var diseaseLabel, confidence := inference.classId, inference.confidence;
    if !DiseaseLabels.IsValidPlantImage(confidence, DiseaseLabels.ConfidenceFloor) {
      return Failure(HttpError(400, NotAPlant));
    }
    var d := ParseDiseaseClass(ClassLabel(models.classNames, diseaseLabel));
    var advice := DiseaseAdvice(d.crop, d.disease, d.isHealthy);
    return Success(DiseaseReport(d.crop, d.disease, d.isHealthy, confidence, advice));
  }

  /** Unlike backend/app.py, an empty class table refuses every request with 503. */
  lemma EmptyTableRefused(models: LoadedModels, upload: Upload, inference: ImageInference)
    requires models.classNames == map[]
    ensures DetectionRejection(models, upload, inference) == Some(HttpError(503, DiseaseModelMissing))
  {
  }

  /** The content type is checked before the upload is read or the model is run. */
  lemma ContentTypeCheckedFirst(models: LoadedModels, contentType: Option<string>,
                                body1: Body, body2: Body, inference1: ImageInference, inference2: ImageInference)
    requires models.diseaseModel && models.classNames != map[] && !IsImageContentType(contentType)
    ensures DetectionRejection(models, Upload(contentType, body1), inference1)
         == DetectionRejection(models, Upload(contentType, body2), inference2)
         == Some(HttpError(400, InvalidFileType))
  {
  }

  /** Every accepted report carries advice that matches its diagnosis. */
  lemma ReportAdviceMatches(table: map<int, string>, classId: nat, confidence: real)
    ensures var report := DiseaseAnswer(table, classId, confidence);
      && (report.isHealthy ==> StartsWith(report.advice, HealthyOpening(report.crop))
                               && report.disease == DiseaseLabels.HealthyName)
      && (!report.isHealthy ==> StartsWith(report.advice, WarningOpening(report.disease, report.crop))
                                && EndsWith(report.advice, ConsultExpert))
  {
    var d := ParseDiseaseClass(ClassLabel(table, classId));
    DiseaseAdviceShape(d.crop, d.disease, d.isHealthy);
  }
}
