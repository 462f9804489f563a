/**
 The class-label interpreter of backend/app.py: `parse_disease_class` turns a raw label of the
 image classifier (`Tomato___Late_blight`, `Pepper__bell___healthy`, ...) into crop, disease and
 health flag, and `is_valid_plant_image` is the confidence floor applied before it.
 */
module DiseaseLabels {
  import opened PyStrings

  /** The result dictionary of `parse_disease_class` in backend/app.py. */
  datatype DiseaseInfo = DiseaseInfo(crop: string, disease: string, isHealthy: bool, fullName: string)

  const UnknownCrop: string := "Unknown"
  const HealthyName: string := "Healthy"
  const HealthyMarker: string := "healthy"

  /** The default `threshold` of `is_valid_plant_image`, also passed explicitly by both endpoints. */
  const ConfidenceFloor: real := 0.3

  /** The three chained `replace` calls: `___` and then `__` become the segment marker `|`,
      and every remaining `_` becomes a space. */
  function Normalize(className: string): string {
    Replace(Replace(Replace(className, "___", "|"), "__", "|"), "_", " ")
  }

  /** `....split('|')` of the normalized label. */
  function Segments(className: string): seq<string> {
    Split(Normalize(className), '|')
  }

  /** `'healthy' in disease.lower()` */
  predicate MentionsHealthy(disease: string) {
    Contains(Lower(disease), HealthyMarker)
  }

  /** `parse_disease_class`: with at least two segments, the first (stripped) is the crop and
      the second (stripped) the disease, replaced by "Healthy" when it mentions "healthy";
      later segments are ignored. With a single segment the crop is "Unknown" and the disease
      is the raw label. `full_name` is always the raw label. */
  function ParseDiseaseClass(className: string): (info: DiseaseInfo)
    ensures info.fullName == className
    ensures info.isHealthy ==> info.disease == HealthyName
    ensures |Segments(className)| < 2 ==> info == DiseaseInfo(UnknownCrop, className, false, className)
  {
    var parts := Segments(className);
    if |parts| >= 2 then
      var crop := Strip(parts[0]);
      var disease := Strip(parts[1]);
      var isHealthy := MentionsHealthy(disease);
      DiseaseInfo(crop, if !isHealthy then disease else HealthyName, isHealthy, className)
    else
      DiseaseInfo(UnknownCrop, className, false, className)
  }

  /** `is_valid_plant_image(confidence, threshold)`: `confidence >= threshold`. */
  predicate IsValidPlantImage(confidence: real, threshold: real) {
    confidence >= threshold
  }

  // ---------------------------------------------------------------------------
  // Properties of the interpreter
  // ---------------------------------------------------------------------------

  /** The normalized label holds a segment marker exactly when the raw label holds `|` or a
      run of at least two underscores. */
  lemma MarkerIffSeparator(className: string)
    ensures '|' in Normalize(className) <==> '|' in className || Contains(className, "__")
  {
    var t := Replace(className, "___", "|");
    var u := Replace(t, "__", "|");
    ReplaceKeepsChar(className, "___", "|", '|');
    ReplaceKeepsChar(t, "__", "|", '|');
    ReplaceKeepsChar(u, "_", " ", '|');
    if Contains(className, "___") {
      ContainsPrefixOfPattern(className, "___", "__");
    } else {
      ReplaceAbsent(className, "___", "|");
    }
  }

  /** The two-segment branch is taken exactly when the label holds `|` or `__`; so a label
      whose only separators are single underscores (the `Crop_Disease` form) is not split. */
  lemma SegmentedIff(className: string)
    ensures |Segments(className)| >= 2 <==> '|' in className || Contains(className, "__")
  {
    MarkerIffSeparator(className);
    SplitHasSeveralParts(Normalize(className), '|');
  }

  /** Without `|` and without `__` the label falls back to crop "Unknown", the raw label as
      disease, and not healthy, whatever the label says (even "Tomato_healthy"). */
  lemma FallbackWithoutSeparator(className: string)
    requires '|' !in className && !Contains(className, "__")
    ensures ParseDiseaseClass(className) == DiseaseInfo(UnknownCrop, className, false, className)
  {
    SegmentedIff(className);
  }

  /** No underscore survives normalization, so no segment holds one. */
  lemma SegmentsHaveNoUnderscore(className: string, i: nat)
    requires i < |Segments(className)|
    ensures '_' !in Segments(className)[i]
  {
    ReplaceRemovesChar(Replace(Replace(className, "___", "|"), "__", "|"), '_', " ");
    if '_' in Segments(className)[i] {
      SplitPartChars(Normalize(className), '|', i, '_');
    }
  }

  /** In the two-segment branch the crop is the first segment stripped, the disease is the
      second stripped (or "Healthy"), the health flag is the case-insensitive "healthy" test on
      the second, and neither name holds an underscore. */
  lemma SegmentedFields(className: string)
    requires '|' in className || Contains(className, "__")
    ensures var info := ParseDiseaseClass(className);
      && |Segments(className)| >= 2
      && info.crop == Strip(Segments(className)[0])
      && (info.isHealthy <==> MentionsHealthy(Strip(Segments(className)[1])))
      && (!info.isHealthy ==> info.disease == Strip(Segments(className)[1]))
      && '_' !in info.crop && '_' !in info.disease
  {
    SegmentedIff(className);
    var parts := Segments(className);
    assert '_' !in Strip(parts[0]) by {
      SegmentsHaveNoUnderscore(className, 0);
      StripKeepsOut(parts[0], '_');
    }
    assert '_' !in Strip(parts[1]) by {
      SegmentsHaveNoUnderscore(className, 1);
      StripKeepsOut(parts[1], '_');
    }
    HealthyNameHasNoUnderscore();
  }

  lemma HealthyNameHasNoUnderscore()
    ensures '_' !in HealthyName
  {
  }

  /** The health flag is set exactly when the label was split and its second segment mentions
      "healthy" in any letter case; a reported disease never mentions it. */
  lemma HealthyIff(className: string)
    ensures var info := ParseDiseaseClass(className);
      && (info.isHealthy <==> |Segments(className)| >= 2 && MentionsHealthy(Strip(Segments(className)[1])))
      && (info.isHealthy <==> info.disease == HealthyName && |Segments(className)| >= 2)
  {
    HealthyNameMentionsHealthy();
  }

  lemma HealthyNameMentionsHealthy()
    ensures MentionsHealthy(HealthyName)
  {
    HealthyNameLowered();
    HealthyMarkerIsHealthy(HealthyMarker);
  }

  lemma HealthyNameLowered()
    ensures Lower(HealthyName) == HealthyMarker
  {
  }

  /** The `Crop___Disease` form: the crop is the part before the triple underscore and the
      disease the part after it with underscores turned into spaces. */
  lemma TripleSeparatorForm(crop: string, disease: string)
    requires '_' !in crop && '|' !in crop
    requires '|' !in disease && !Contains(disease, "__")
    ensures Segments(crop + "___" + disease) == [crop, Replace(disease, "_", " ")]
  {
    TripleStep(crop, disease);
    SameAfterUnderscoreSteps(crop, disease);
  }

  /** Replacing `___` turns `crop___disease` into `crop|disease`. */
  lemma TripleStep(crop: string, disease: string)
    requires '_' !in crop && !Contains(disease, "__")
    ensures Replace(crop + "___" + disease, "___", "|") == crop + "|" + disease
  {
    Regroup3(crop, "___", disease);
    ReplaceSkipPrefix(crop, "___" + disease, "___", "|");
    TripleAtFront(disease);
    Regroup3(crop, "|", disease);
  }

  lemma TripleAtFront(disease: string)
    requires !Contains(disease, "__")
    ensures Replace("___" + disease, "___", "|") == "|" + disease
  {
    ReplaceAtFront(disease, "___", "|");
    if Contains(disease, "___") {
      ContainsPrefixOfPattern(disease, "___", "__");
    }
    ReplaceAbsent(disease, "___", "|");
  }

  /** The `Crop__Disease` form, for a disease part that does not itself start with `_`. */
  lemma DoubleSeparatorForm(crop: string, disease: string)
    requires '_' !in crop && '|' !in crop
    requires '|' !in disease && !Contains(disease, "__")
    requires disease == [] || disease[0] != '_'
    ensures Segments(crop + "__" + disease) == [crop, Replace(disease, "_", " ")]
  {
    NoTripleInDoubleForm(crop, disease);
    ReplaceAbsent(crop + "__" + disease, "___", "|");
    DoubleStep(crop, disease);
    SameAfterUnderscoreSteps(crop, disease);
  }

  lemma NoTripleInDoubleForm(crop: string, disease: string)
    requires '_' !in crop && !Contains(disease, "__")
    requires disease == [] || disease[0] != '_'
    ensures !Contains(crop + "__" + disease, "___")
  {
    Regroup3(crop, "__", disease);
    NoTripleAfterDouble(disease);
    ContainsSkipPrefix(crop, "__" + disease, "___");
  }

  /** Replacing `__` turns `crop__disease` into `crop|disease`. */
  lemma DoubleStep(crop: string, disease: string)
    requires '_' !in crop && !Contains(disease, "__")
    ensures Replace(crop + "__" + disease, "__", "|") == crop + "|" + disease
  {
    Regroup3(crop, "__", disease);
    ReplaceSkipPrefix(crop, "__" + disease, "__", "|");
    ReplaceAtFront(disease, "__", "|");
    ReplaceAbsent(disease, "__", "|");
    Regroup3(crop, "|", disease);
  }

  lemma NoTripleAfterDouble(disease: string)
    requires !Contains(disease, "__")
    requires disease == [] || disease[0] != '_'
    ensures !Contains("__" + disease, "___")
  {
    var w := "__" + disease;
    if |w| >= 3 {
      assert w[..3] != "___" by { assert w[2] == disease[0]; }
      var v := w[1..];
      assert v == "_" + disease;
      assert v[1..] == disease;
      if Contains(disease, "___") {
        ContainsPrefixOfPattern(disease, "___", "__");
      }
    }
  }

  /** Once the label reads `crop|disease`, the last two replace steps and the split give the two
      segments. */
  lemma SameAfterUnderscoreSteps(crop: string, disease: string)
    requires '_' !in crop && '|' !in crop
    requires '|' !in disease && !Contains(disease, "__")
    ensures Replace(crop + "|" + disease, "__", "|") == crop + "|" + disease
    ensures Split(Replace(crop + "|" + disease, "_", " "), '|') == [crop, Replace(disease, "_", " ")]
  {
    var head := crop + "|";
    assert Replace(head + disease, "__", "|") == head + disease by {
      ReplaceSkipPrefix(head, disease, "__", "|");
      ReplaceAbsent(disease, "__", "|");
    }
    var spaced := Replace(disease, "_", " ");
    assert Replace(head + disease, "_", " ") == head + spaced by {
      ReplaceSkipPrefix(head, disease, "_", " ");
    }
    assert '|' !in spaced by {
      ReplaceKeepsChar(disease, "_", " ", '|');
    }
    assert Join([crop, spaced], '|') == head + spaced by {
      assert [crop, spaced][1..] == [spaced];
    }
    SplitJoin([crop, spaced], '|');
  }

  /** The `Crop_Disease` form named in the function's own documentation is NOT split: with
      underscore-free parts it takes the "Unknown" fallback. */
  lemma SingleSeparatorFallsBack(crop: string, disease: string)
    requires '_' !in crop && '|' !in crop && '_' !in disease && '|' !in disease
    ensures ParseDiseaseClass(crop + "_" + disease)
         == DiseaseInfo(UnknownCrop, crop + "_" + disease, false, crop + "_" + disease)
  {
    NoDoubledChar(crop, disease, '_');
    assert crop + "_" + disease == crop + ['_'] + disease;
    FallbackWithoutSeparator(crop + "_" + disease);
  }

  /** The label built for a class id missing from the table, `Unknown_<id>`, falls back too. */
  lemma UnknownIdLabelFallsBack(id: nat)
    ensures var className := "Unknown_" + NatToString(id);
      ParseDiseaseClass(className) == DiseaseInfo(UnknownCrop, className, false, className)
  {
    var digits := NatToString(id);
    assert '_' !in digits && '|' !in digits;
    assert "Unknown_" + digits == "Unknown" + "_" + digits;
    SingleSeparatorFallsBack("Unknown", digits);
  }

  /** The documented `Crop___Disease` form in general: the crop comes back as written, the
      disease with its underscores turned into spaces, and the health flag says whether that
      disease name mentions "healthy". */
  lemma TripleSeparatorParse(crop: string, disease: string)
    requires '_' !in crop && '|' !in crop
    requires crop == [] || (!IsSpace(crop[0]) && !IsSpace(crop[|crop| - 1]))
    requires '|' !in disease && !Contains(disease, "__")
    requires disease == [] || (disease[0] != '_' && !IsSpace(disease[0]))
    requires disease == [] || (disease[|disease| - 1] != '_' && !IsSpace(disease[|disease| - 1]))
    ensures var name := Replace(disease, "_", " ");
      ParseDiseaseClass(crop + "___" + disease)
        == DiseaseInfo(crop, if MentionsHealthy(name) then HealthyName else name,
                       MentionsHealthy(name), crop + "___" + disease)
  {
    TripleSeparatorForm(crop, disease);
    ReplaceCharByChar(disease, '_', ' ');
    TwoSegmentsParse(crop + "___" + disease, crop, Replace(disease, "_", " "));
  }

  // ---------------------------------------------------------------------------
  // The example of the docstring and labels of the PlantVillage data set
  // ---------------------------------------------------------------------------

  /** A word of a label: not empty, without separators, without whitespace at its ends. */
  predicate PlainWord(w: string) {
    w != [] && '_' !in w && '|' !in w && !IsSpace(w[0]) && !IsSpace(w[|w| - 1])
  }

  /** `crop___disease` with a one-word disease: crop and disease come back as written. */
  lemma OneWordParse(crop: string, disease: string)
    requires PlainWord(crop) && PlainWord(disease)
    ensures ParseDiseaseClass(crop + "___" + disease)
         == DiseaseInfo(crop, if MentionsHealthy(disease) then HealthyName else disease,
                        MentionsHealthy(disease), crop + "___" + disease)
  {
    WordLacksUnderscores(disease);
    TripleSeparatorParse(crop, disease);
  }

  /** `crop___first_second`: the disease comes back as the two words joined by a space. */
  lemma TwoWordParse(crop: string, first: string, second: string)
    requires PlainWord(crop) && PlainWord(first) && PlainWord(second)
    ensures var name := first + " " + second;
      ParseDiseaseClass(crop + "___" + (first + "_" + second))
        == DiseaseInfo(crop, if MentionsHealthy(name) then HealthyName else name,
                       MentionsHealthy(name), crop + "___" + (first + "_" + second))
  {
    TwoWordDisease(first, second);
    TripleSeparatorParse(crop, first + "_" + second);
  }

  /** `crop__variety___first_second`: the variety is reported as the disease. */
  lemma VarietyParse(crop: string, variety: string, first: string, second: string)
    requires PlainWord(crop) && PlainWord(variety) && PlainWord(first) && PlainWord(second)
    ensures var raw := crop + "__" + variety + "___" + (first + "_" + second);
      ParseDiseaseClass(raw)
        == DiseaseInfo(crop, if MentionsHealthy(variety) then HealthyName else variety,
                       MentionsHealthy(variety), raw)
  {
    TwoWordDisease(first, second);
    var raw := crop + "__" + variety + "___" + (first + "_" + second);
    ExtraSegmentIgnored(crop, variety, first + "_" + second);
    TwoSegmentsParse(raw, crop, variety);
  }

  lemma WordLacksUnderscores(w: string)
    requires '_' !in w
    ensures !Contains(w, "__") && Replace(w, "_", " ") == w
  {
    if Contains(w, "__") {
      ContainsChars(w, "__", 0);
    }
    if Contains(w, "_") {
      ContainsChars(w, "_", 0);
    }
    ReplaceAbsent(w, "_", " ");
  }

  /** Two words joined by an underscore. */
  lemma TwoWordDisease(first: string, second: string)
    requires PlainWord(first) && PlainWord(second)
    ensures var d := first + "_" + second;
      && '|' !in d && !Contains(d, "__")
      && d[0] == first[0] && d[|d| - 1] == second[|second| - 1]
      && Replace(d, "_", " ") == first + " " + second
  {
    var d := first + "_" + second;
    assert !Contains(d, "__") by {
      assert d == first + ['_'] + second;
      NoDoubledChar(first, second, '_');
    }
    assert Replace(d, "_", " ") == first + " " + second by {
      Regroup3(first, "_", second);
      ReplaceSkipPrefix(first, "_" + second, "_", " ");
      ReplaceAtFront(second, "_", " ");
      WordLacksUnderscores(second);
      Regroup3(first, " ", second);
    }
  }

  /** "Tomato___Late_blight" gives crop "Tomato", disease "Late blight", not healthy. */
  lemma TomatoLateBlight(className: string)
    requires className == "Tomato___Late_blight"
    ensures ParseDiseaseClass(className) == DiseaseInfo("Tomato", "Late blight", false, className)
  {
    TomatoLateBlightWords("Tomato", "Late", "blight", className, "Late blight");
    TwoWordParse("Tomato", "Late", "blight");
    NoLetterY("Late blight");
  }

  /** The spelling of the example as words, kept apart from the parse so that the solver meets the
      string literals only here. */
  lemma TomatoLateBlightWords(crop: string, first: string, second: string, raw: string, name: string)
    requires crop == "Tomato" && first == "Late" && second == "blight"
    requires raw == "Tomato___Late_blight" && name == "Late blight"
    ensures PlainWord(crop) && PlainWord(first) && PlainWord(second)
    ensures raw == crop + "___" + (first + "_" + second) && name == first + " " + second
    ensures 'y' !in name && 'Y' !in name
  {
    var disease := first + "_" + second;
    assert disease == "Late_blight";
    assert raw == crop + "___" + disease;
  }

  /** "Tomato_healthy" (a single underscore) is reported as crop "Unknown", disease
      "Tomato_healthy" and NOT healthy. */
  lemma TomatoHealthySingleUnderscore()
    ensures ParseDiseaseClass("Tomato_healthy")
         == DiseaseInfo(UnknownCrop, "Tomato_healthy", false, "Tomato_healthy")
  {
    assert "Tomato_healthy" == "Tomato" + "_" + "healthy";
    SingleSeparatorFallsBack("Tomato", "healthy");
  }

  /** "Potato___healthy" is a healthy potato. */
  lemma PotatoHealthy(className: string)
    requires className == "Potato___healthy"
    ensures ParseDiseaseClass(className) == DiseaseInfo("Potato", HealthyName, true, className)
  {
    assert PlainWord("Potato") && PlainWord("healthy");
    assert className == "Potato" + "___" + "healthy";
    OneWordParse("Potato", "healthy");
    HealthyMarkerIsHealthy("healthy");
  }

  lemma HealthyMarkerIsHealthy(name: string)
    requires name == HealthyMarker
    ensures MentionsHealthy(name)
  {
    assert Lower(name) == name;
    assert name[..|name|] == name;
  }

  /** "Pepper__bell___Bacterial_spot": the double underscore inside the crop name also splits,
      so the crop is "Pepper" and the disease "bell"; the real disease lands in the third segment,
      which is ignored. */
  lemma PepperBellBacterialSpot(className: string)
    requires className == "Pepper__bell___Bacterial_spot"
    ensures ParseDiseaseClass(className) == DiseaseInfo("Pepper", "bell", false, className)
  {
    PepperBellWords("Pepper", "bell", "Bacterial", "spot", className);
    VarietyParse("Pepper", "bell", "Bacterial", "spot");
    NoLetterY("bell");
  }

  /** The spelling of the example as words, kept apart from the parse so that the solver meets the
      string literals only here. */
  lemma PepperBellWords(crop: string, variety: string, first: string, second: string, raw: string)
    requires crop == "Pepper" && variety == "bell" && first == "Bacterial" && second == "spot"
    requires raw == "Pepper__bell___Bacterial_spot"
    ensures PlainWord(crop) && PlainWord(variety) && PlainWord(first) && PlainWord(second)
    ensures raw == crop + "__" + variety + "___" + (first + "_" + second)
    ensures 'y' !in variety && 'Y' !in variety
  {
    var head := crop + "__" + variety;
    var disease := first + "_" + second;
    assert head == "Pepper__bell";
    assert disease == "Bacterial_spot";
    assert raw == head + "___" + disease;
  }

  /** A `Crop__Variety___Disease` label: the double underscore splits first, so the variety
      takes the disease's place and the disease becomes an ignored third segment. */
  lemma ExtraSegmentIgnored(crop: string, variety: string, disease: string)
    requires '_' !in crop && '|' !in crop
    requires variety != [] && '_' !in variety && '|' !in variety
    requires '|' !in disease && !Contains(disease, "__") && (disease == [] || disease[0] != '_')
    ensures Segments(crop + "__" + variety + "___" + disease)
         == [crop, variety, Replace(disease, "_", " ")]
  {
    ExtraSegmentTripleStep(crop, variety, disease);
    ExtraSegmentDoubleStep(crop, variety, disease);
    ExtraSegmentSplit(crop, variety, disease);
  }

  lemma ExtraSegmentSplit(crop: string, variety: string, disease: string)
    requires '_' !in crop && '|' !in crop && '_' !in variety && '|' !in variety && '|' !in disease
    ensures Split(Replace(crop + "|" + variety + "|" + disease, "_", " "), '|')
         == [crop, variety, Replace(disease, "_", " ")]
  {
    var spaced := Replace(disease, "_", " ");
    var parts := [crop, variety, spaced];
    assert Replace(crop + "|" + variety + "|" + disease, "_", " ") == Join(parts, '|') by {
      var head := crop + "|" + variety + "|";
      assert crop + "|" + variety + "|" + disease == head + disease;
      ReplaceSkipPrefix(head, disease, "_", " ");
      JoinThree(crop, variety, spaced, '|');
    }
    assert '|' !in spaced by {
      ReplaceKeepsChar(disease, "_", " ", '|');
    }
    SplitJoin(parts, '|');
  }

  /** Three parts joined by a separator. */
  lemma JoinThree(a: string, b: string, c: string, sep: char)
    ensures Join([a, b, c], sep) == a + [sep] + b + [sep] + c
  {
    assert [a, b, c][1..] == [b, c] && [b, c][1..] == [c];
    assert Join([b, c], sep) == b + [sep] + c;
    assert Join([a, b, c], sep) == a + [sep] + (b + [sep] + c);
    Regroup(a, [sep], b, [sep], c);
    Regroup3(a, [sep], b + [sep] + c);
  }

  lemma ExtraSegmentTripleStep(crop: string, variety: string, disease: string)
    requires '_' !in crop && variety != [] && '_' !in variety && !Contains(disease, "__")
    ensures Replace(crop + "__" + variety + "___" + disease, "___", "|")
         == crop + "__" + variety + "|" + disease
  {
    var tail := variety + "___" + disease;
    assert Replace("__" + tail, "___", "|") == "__" + (variety + "|" + disease) by {
      TripleStep(variety, disease);
      TripleSkipsDouble(tail);
    }
    Regroup(crop, "__", variety, "___", disease);
    ReplaceSkipPrefix(crop, "__" + tail, "___", "|");
    Regroup(crop, "__", variety, "|", disease);
  }

  /** Regrouping a three-part concatenation from the right. */
  lemma Regroup3(a: string, b: string, c: string)
    ensures a + b + c == a + (b + c)
  {
  }

  /** Regrouping a five-part concatenation from the right. */
  lemma Regroup(a: string, b: string, c: string, d: string, e: string)
    ensures a + b + c + d + e == a + (b + (c + d + e))
  {
  }

  lemma ExtraSegmentDoubleStep(crop: string, variety: string, disease: string)
    requires '_' !in crop && '_' !in variety && !Contains(disease, "__")
    ensures Replace(crop + "__" + variety + "|" + disease, "__", "|")
         == crop + "|" + variety + "|" + disease
  {
    Regroup(crop, "__", variety, "|", disease);
    ReplaceSkipPrefix(crop, "__" + (variety + "|" + disease), "__", "|");
    DoubleBeforeVariety(variety, disease);
    Regroup(crop, "|", variety, "|", disease);
  }

  lemma DoubleBeforeVariety(variety: string, disease: string)
    requires '_' !in variety && !Contains(disease, "__")
    ensures Replace("__" + (variety + "|" + disease), "__", "|") == "|" + (variety + "|" + disease)
  {
    var rest := variety + "|" + disease;
    ReplaceAtFront(rest, "__", "|");
    assert rest == (variety + "|") + disease;
    ReplaceSkipPrefix(variety + "|", disease, "__", "|");
    ReplaceAbsent(disease, "__", "|");
  }

  /** A `___` scan passes over a leading `__` that is followed by something other than `_`. */
  lemma TripleSkipsDouble(v: string)
    requires v != [] && v[0] != '_'
    ensures Replace("__" + v, "___", "|") == "__" + Replace(v, "___", "|")
  {
    var w := "__" + v;
    assert w == ['_'] + ("_" + v);
    assert w[..3] != "___" by { assert w[2] == v[0]; }
    ReplaceStepOver('_', "_" + v, "___", "|");
    var w1 := "_" + v;
    assert w1 == ['_'] + v;
    assert |w1| < 3 || w1[..3] != "___" by {
      if |w1| >= 3 { assert w1[1] == v[0]; }
    }
    ReplaceStepOver('_', v, "___", "|");
    Regroup3("_", "_", Replace(v, "___", "|"));
  }

  /** A label with no separator at all ("XYZ") falls back with the label as disease. */
  lemma NoSeparatorLabel()
    ensures ParseDiseaseClass("XYZ") == DiseaseInfo(UnknownCrop, "XYZ", false, "XYZ")
  {
    if Contains("XYZ", "__") {
      ContainsChars("XYZ", "__", 0);
    }
    FallbackWithoutSeparator("XYZ");
  }

  // Helpers of the examples: each keeps one literal computation in a proof of its own.

  lemma TwoSegmentsParse(className: string, first: string, second: string)
    requires |Segments(className)| >= 2
    requires Segments(className)[0] == first && Segments(className)[1] == second
    requires first == [] || (!IsSpace(first[0]) && !IsSpace(first[|first| - 1]))
    requires second == [] || (!IsSpace(second[0]) && !IsSpace(second[|second| - 1]))
    ensures ParseDiseaseClass(className)
         == DiseaseInfo(first, if MentionsHealthy(second) then HealthyName else second,
                        MentionsHealthy(second), className)
  {
  }

  /** A name with no `y` in either case does not mention "healthy". */
  lemma NoLetterY(name: string)
    requires 'y' !in name && 'Y' !in name
    ensures !MentionsHealthy(name)
  {
    var lowered := Lower(name);
    if Contains(lowered, HealthyMarker) {
      ContainsChars(lowered, HealthyMarker, 6);
    }
  }

  /** The confidence floor is inclusive: exactly 0.3 is accepted, anything below is rejected. */
  lemma FloorIsInclusive(confidence: real)
    ensures IsValidPlantImage(confidence, ConfidenceFloor) <==> confidence >= 0.3
    ensures IsValidPlantImage(0.3, ConfidenceFloor)
  {
  }
}
