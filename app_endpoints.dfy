/**
 The two model-backed endpoints of backend/app.py, `recommend_crop` and `detect_disease`, as
 the sequence of checks they run and the answer they assemble. The models, the upload, the
 generation service and the prompt wording are inputs; Firebase persistence is not modelled
 (its errors are caught and logged and never change the answer).
 */
module AppEndpoints {
  import opened Wrappers
  import opened PyStrings
  import opened Requests
  import opened ClassTable
  import opened DiseaseLabels
  import opened Generation

  /** The advice prompts. Their wording is free text; what matters is what each is built from:
      the crop and the request for crop advice, the crop for a healthy plant, and the disease and
      the crop for a diseased one. */
  datatype Prompts = Prompts(
    cropAdvice: (string, CropData) -> string,
    healthyPlant: string -> string,
    diseasedPlant: (string, string) -> string)

  /** The generation environment met by each `query_huggingface` call of one request: the advice
      query, then the translations of the advice, the crop and the disease. */
  datatype Services = Services(advice: GenEnv, translateAdvice: GenEnv, translateCrop: GenEnv,
                               translateDisease: GenEnv)

  datatype CropRecommendation = CropRecommendation(recommendedCrop: string, advice: string)

  datatype DiseaseReport =
    DiseaseReport(crop: string, disease: string, isHealthy: bool, confidence: real, advice: string)

  const CropModelMissing: string := "Crop recommendation model not available"
  const CropFailed: string := "Unable to process crop recommendation. Please try again later."
  const DiseaseModelMissing: string := "Disease detection model not available"
  const InvalidFileType: string := "Invalid file type. Please upload an image file (JPEG, PNG, etc.)"
  const InvalidImage: string := "Invalid image file. Please upload a valid image."
  const NotAPlant: string :=
    "The uploaded image does not appear to be a valid plant leaf image. Please upload a clear image of a plant leaf (Tomato, Potato, or Pepper)."
  const DetectionFailed: string := "Unable to process disease detection. Please try again later."

  // ---------------------------------------------------------------------------
  // recommend_crop
  // ---------------------------------------------------------------------------

  /** The answer for a predicted crop: the advice generated for it, and both the crop and the
      advice in the requested language (English passes through). */
  function CropAnswer(data: CropData, crop: string, prompts: Prompts, services: Services): CropRecommendation {
    var advice := Query(prompts.cropAdvice(crop, data), services.advice);
    CropRecommendation(TranslateText(crop, data.language, services.translateCrop),
                       TranslateText(advice, data.language, services.translateAdvice))
  }

  /** `recommend_crop`: 503 without a model, 500 when prediction raises, else the answer. */
  method RecommendCrop(data: CropData, models: LoadedModels, inference: CropInference,
                       prompts: Prompts, services: Services)
    returns (r: Result<CropRecommendation, HttpError>)
    ensures !models.cropModel ==> r == Failure(HttpError(503, CropModelMissing))
    ensures models.cropModel && inference.PredictionFails? ==> r == Failure(HttpError(500, CropFailed))
    ensures models.cropModel && inference.CropPredicted?
        ==> r == Success(CropAnswer(data, inference.crop, prompts, services))
    ensures models.cropModel && inference.CropPredicted? && data.language == "en"
        ==> r == Success(CropRecommendation(inference.crop,
                                           Query(prompts.cropAdvice(inference.crop, data), services.advice)))
  {
    if !models.cropModel {
      return Failure(HttpError(503, CropModelMissing));
    }
    if inference.PredictionFails? {
      return Failure(HttpError(500, CropFailed));
    }
    var crop := inference.crop;
    var advice, attempts, delays := QueryHuggingface(prompts.cropAdvice(crop, data), services.advice);
    if data.language != "en" {
      advice := Translate(advice, data.language, services.translateAdvice);
      crop := Translate(crop, data.language, services.translateCrop);
    }
    return Success(CropRecommendation(crop, advice));
  }

  /** An English request gets the predicted crop back untouched, with the generated advice as
      it came. */
  lemma EnglishCropAnswer(data: CropData, crop: string, prompts: Prompts, services: Services)
    requires data.language == "en"
    ensures CropAnswer(data, crop, prompts, services)
         == CropRecommendation(crop, Query(prompts.cropAdvice(crop, data), services.advice))
  {
  }

  // ---------------------------------------------------------------------------
  // detect_disease
  // ---------------------------------------------------------------------------

  /** The first check of `detect_disease` that fails, in the order the handler runs them; `None`
      when all pass. A failed read and a raising prediction are exceptions the handler turns
      into a 500. */
  function DetectionRejection(models: LoadedModels, upload: Upload, inference: ImageInference): (e: Option<HttpError>)
    ensures e.Some? ==> e.value.status in {400, 500, 503}
  {
    if !models.diseaseModel then Some(HttpError(503, DiseaseModelMissing))
    else if !IsImageContentType(upload.contentType) then Some(HttpError(400, InvalidFileType))
    else if upload.body.Unreadable? then Some(HttpError(500, DetectionFailed))
    else if upload.body.Undecodable? then Some(HttpError(400, InvalidImage))
    else if inference.InferenceFails? then Some(HttpError(500, DetectionFailed))
    else if !IsValidPlantImage(inference.confidence, ConfidenceFloor) then Some(HttpError(400, NotAPlant))
    else None
  }

  /** The prompt for the advice about a parsed class. */
  function DiseasePrompt(info: DiseaseInfo, prompts: Prompts): string {
    if info.isHealthy then prompts.healthyPlant(info.crop) else prompts.diseasedPlant(info.disease, info.crop)
  }

  /** The report for an accepted prediction: the class name looked up and parsed, advice
      generated for it, and advice, crop and disease in the requested language. */
  function DiseaseAnswer(table: map<int, string>, classId: nat, confidence: real, lang: string,
                         prompts: Prompts, services: Services): DiseaseReport
  {
    var info := ParseDiseaseClass(ClassLabel(table, classId));
    var advice := Query(DiseasePrompt(info, prompts), services.advice);
    DiseaseReport(TranslateText(info.crop, lang, services.translateCrop),
                  TranslateText(info.disease, lang, services.translateDisease),
                  info.isHealthy, confidence,
                  TranslateText(advice, lang, services.translateAdvice))
  }

  /** `detect_disease`, step by step. */
  method DetectDisease(upload: Upload, lang: string, models: LoadedModels, inference: ImageInference,
                       prompts: Prompts, services: Services)
    returns (r: Result<DiseaseReport, HttpError>)
    ensures var e := DetectionRejection(models, upload, inference);
      && (e.Some? ==> r == Failure(e.value))
      && (e.None? ==> r == Success(DiseaseAnswer(models.classNames, inference.classId,
                                                 inference.confidence, lang, prompts, services)))
  {
    if !models.diseaseModel {
      return Failure(HttpError(503, DiseaseModelMissing));
    }
    if !IsImageContentType(upload.contentType) {
      return Failure(HttpError(400, InvalidFileType));
    }
    if upload.body.Unreadable? {
      return Failure(HttpError(500, DetectionFailed));
    }
    if upload.body.Undecodable? {
      return Failure(HttpError(400, InvalidImage));
    }
    if inference.InferenceFails? {
      return Failure(HttpError(500, DetectionFailed));
    }
    var diseaseLabel, confidence := inference.classId, inference.confidence;
    if !IsValidPlantImage(confidence, ConfidenceFloor) {
      return Failure(HttpError(400, NotAPlant));
    }
    var info := ParseDiseaseClass(ClassLabel(models.classNames, diseaseLabel));
    var cropName, diseaseName := info.crop, info.disease;
    var prompt;
    if info.isHealthy {
      prompt := prompts.healthyPlant(cropName);
    } else {
      prompt := prompts.diseasedPlant(diseaseName, cropName);
    }
    var advice, attempts, delays := QueryHuggingface(prompt, services.advice);
    if lang != "en" {
      advice := Translate(advice, lang, services.translateAdvice);
      cropName := Translate(cropName, lang, services.translateCrop);
      diseaseName := Translate(diseaseName, lang, services.translateDisease);
    }
    return Success(DiseaseReport(cropName, diseaseName, info.isHealthy, confidence, advice));
  }

  /** The content type is checked before the upload is read or the model is run: a non-image
      type is refused with 400 whatever the body and the prediction would have been. */
  lemma ContentTypeCheckedFirst(models: LoadedModels, contentType: Option<string>,
                                body1: Body, body2: Body, inference1: ImageInference, inference2: ImageInference)
    requires models.diseaseModel && !IsImageContentType(contentType)
    ensures DetectionRejection(models, Upload(contentType, body1), inference1)
         == DetectionRejection(models, Upload(contentType, body2), inference2)
         == Some(HttpError(400, InvalidFileType))
  {
  }

  /** Without the disease model every request is refused with 503, before anything else. */
  lemma MissingModelFirst(models: LoadedModels, upload: Upload, inference: ImageInference)
    requires !models.diseaseModel
    ensures DetectionRejection(models, upload, inference) == Some(HttpError(503, DiseaseModelMissing))
  {
  }

  /** A decodable image of an accepted type with a prediction is refused exactly when its
      confidence is below 0.3; a confidence of exactly 0.3 is accepted. */
  lemma ConfidenceDecides(models: LoadedModels, upload: Upload, classId: nat, confidence: real)
    requires models.diseaseModel && IsImageContentType(upload.contentType) && upload.body.Decodes?
    ensures DetectionRejection(models, upload, Predicted(classId, confidence)).Some?
        <==> confidence < 3.0 / 10.0
    ensures DetectionRejection(models, upload, Predicted(classId, 3.0 / 10.0)).None?
  {
    FloorIsInclusive(confidence);
  }

  /** An English report of a class id missing from the table names crop "Unknown", the disease
      `Unknown_<id>` and not healthy; the lookup never fails. */
  lemma UnknownClassReport(table: map<int, string>, classId: nat, confidence: real,
                           prompts: Prompts, services: Services)
    requires classId !in table
    ensures var report := DiseaseAnswer(table, classId, confidence, "en", prompts, services);
      && report.crop == UnknownCrop
      && report.disease == UnknownPrefix + NatToString(classId)
      && !report.isHealthy
  {
    UnknownIdLabelFallsBack(classId);
  }

  /** A healthy report names the disease "Healthy" (in the requested language) and its advice
      comes from the healthy-plant prompt about the parsed crop. */
  lemma HealthyReport(table: map<int, string>, classId: nat, confidence: real, lang: string,
                      prompts: Prompts, services: Services)
    requires DiseaseAnswer(table, classId, confidence, lang, prompts, services).isHealthy
    ensures var info := ParseDiseaseClass(ClassLabel(table, classId));
      var report := DiseaseAnswer(table, classId, confidence, lang, prompts, services);
      && report.disease == TranslateText(HealthyName, lang, services.translateDisease)
      && report.advice == TranslateText(Query(prompts.healthyPlant(info.crop), services.advice),
                                        lang, services.translateAdvice)
  {
  }
}
