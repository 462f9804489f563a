/**
 The inputs the two endpoints see once the foreign libraries are abstracted away: the crop
 request body, the uploaded file, what the image and crop models return, and the HTTP error
 a handler raises.
 */
module Requests {
  import opened Wrappers
  import opened PyStrings

  /** The `CropData` request body. The seven numbers are `float` fields in the source. */
  datatype CropData = CropData(
    n: real, p: real, k: real,
    temperature: real, humidity: real, ph: real, rainfall: real,
    userId: string, language: string)

  /** What `await file.read()` and `Image.open(...).convert('RGB')` make of the upload. */
  datatype Body =
    | Unreadable(message: string)   // reading the upload raises
    | Undecodable                   // the bytes are not an image PIL can open
    | Decodes                       // a decodable image

  /** An uploaded file: its declared content type (absent when the client sent none). */
  datatype Upload = Upload(contentType: Option<string>, body: Body)

  /** The image model's answer: `argmax` and `max` of the prediction, or the exception it raised. */
  datatype ImageInference =
    | Predicted(classId: nat, confidence: real)
    | InferenceFails(message: string)

  /** The crop model's answer: the predicted label and the class probabilities (`None` when
      `predict_proba` raises), or the exception `predict` raised. */
  datatype CropInference =
    | CropPredicted(crop: string, probabilities: Option<seq<real>>)
    | PredictionFails(message: string)

  /** What the startup code loaded: the module globals `crop_model`, `disease_model` (each present
      or `None`) and `disease_class_names`. */
  datatype LoadedModels = LoadedModels(cropModel: bool, diseaseModel: bool, classNames: map<int, string>)

  /** `HTTPException(status_code, detail)` */
  datatype HttpError = HttpError(status: nat, detail: string)

  const MediaPrefix: string := "image/"

  /** `file.content_type and file.content_type.startswith('image/')`: present, non-empty and
      with the `image/` prefix. */
  predicate IsImageContentType(contentType: Option<string>) {
    contentType.Some? && contentType.value != [] && StartsWith(contentType.value, MediaPrefix)
  }

  /** The content-type test holds exactly for types of the form `image/...`; an absent type, an
      empty one and a bare `image` are all refused. */
  lemma ContentTypeIff(contentType: Option<string>)
    ensures IsImageContentType(contentType)
        <==> exists rest :: contentType == Some(MediaPrefix + rest)
  {
    if IsImageContentType(contentType) {
      var t := contentType.value;
      assert t == MediaPrefix + t[|MediaPrefix|..];
    }
    if exists rest :: contentType == Some(MediaPrefix + rest) {
      var rest :| contentType == Some(MediaPrefix + rest);
      assert (MediaPrefix + rest)[..|MediaPrefix|] == MediaPrefix;
    }
  }
}
